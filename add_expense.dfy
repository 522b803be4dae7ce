/** add-expense.component.ts: the category colour tables, the live conversion
    preview, receipt validation, and `save`, which converts the amount to US
    dollars, builds the payload and hands it to the expenses service. */
module AddExpense {
  import opened Js
  import opened Records
  import opened Storage
  import opened Offline
  import opened Expenses
  import opened Toasts

  // ---------------------------------------------------------------------------
  // Colour tables

  /** The ids with a colour of their own; every other id (news included) is gray. */
  const ColouredCategories: set<string> := {"groceries", "entertainment", "gas", "shopping", "transport", "rent"}
  const GrayBackground := "#f3f4f6"
  const GrayIcon := "#6b7280"

  /** `categoryBgColor(id)`. */
  function CategoryBgColor(id: string): (c: string)
    ensures id !in ColouredCategories ==> c == GrayBackground
    ensures c in {"#e0e7ff", "#dbeafe", "#fee2e2", "#fef9c3", "#ede9fe", "#fef3c7", GrayBackground}
  {
    if id == "groceries" then "#e0e7ff"
    else if id == "entertainment" then "#dbeafe"
    else if id == "gas" then "#fee2e2"
    else if id == "shopping" then "#fef9c3"
    else if id == "news" then GrayBackground
    else if id == "transport" then "#ede9fe"
    else if id == "rent" then "#fef3c7"
    else GrayBackground
  }

  /** `categoryIconColor(id)`. */
  function CategoryIconColor(id: string): (c: string)
    ensures id !in ColouredCategories ==> c == GrayIcon
    ensures c in {"#2563eb", "#ef4444", "#f59e42", "#7c3aed", GrayIcon}
  {
    if id == "groceries" then "#2563eb"
    else if id == "entertainment" then "#2563eb"
    else if id == "gas" then "#ef4444"
    else if id == "shopping" then "#f59e42"
    else if id == "news" then GrayIcon
    else if id == "transport" then "#7c3aed"
    else if id == "rent" then "#f59e42"
    else GrayIcon
  }

  /** The two tables agree on which ids are gray: exactly those without a colour of their own. */
  lemma ColourTablesAgree(id: string)
    ensures CategoryBgColor(id) == GrayBackground <==> id !in ColouredCategories
    ensures CategoryIconColor(id) == GrayIcon <==> id !in ColouredCategories
  {
  }

  // ---------------------------------------------------------------------------
  // The form

  /** The form's value; `date` is the date field as `new Date` reads it. */
  datatype FormValue = FormValue(
    category: Option<string>,
    amount: Option<real>,
    currency: Option<string>,
    date: DateText,
    receipt: Option<string>)

  /** The validators: category, amount, currency and date required, amount at least 0.01. */
  predicate FormValid(f: FormValue)
  {
    && f.category.Some? && f.category.value != ""
    && f.amount.Some? && f.amount.value >= 0.01
    && f.currency.Some? && f.currency.value != ""
    && !f.date.NoDate?
  }

  /** `form.reset({ currency: 'USD', date: today })`. */
  function ResetForm(today: DateText): FormValue
  {
    FormValue(None, None, Some("USD"), today, None)
  }

  /** `formVal.currency || 'USD'`. */
  function CurrencyOf(f: FormValue): (c: string)
    ensures c != ""
    ensures FormValid(f) ==> c == f.currency.value
  {
    if f.currency.Some? && f.currency.value != "" then f.currency.value else "USD"
  }

  // ---------------------------------------------------------------------------
  // Conversion

  /** `res && res.rates && res.rates[currency]`: a truthy (non-zero) rate, when there is one. */
  function Rate(res: Option<Rates>, currency: string): (rate: Option<real>)
    ensures rate.Some? ==> rate.value != 0.0 && res.Some? && res.value.rates.Some?
                           && currency in res.value.rates.value && res.value.rates.value[currency] == rate.value
    ensures (res.Some? && res.value.rates.Some? && currency in res.value.rates.value
             && res.value.rates.value[currency] != 0.0) ==> rate.Some?
  {
    if res.Some? && res.value.rates.Some? && currency in res.value.rates.value && res.value.rates.value[currency] != 0.0
    then Some(res.value.rates.value[currency])
    else None
  }

  /** How the rates request of `save` ended: it resolved (possibly with null), or threw. */
  datatype RatesCall = Returned(res: Option<Rates>) | Threw

  /** The USD amount `save` settles on, and the toasts it shows on the way. */
  datatype Conversion = Conversion(amountUsd: Option<real>, notices: seq<string>)

  /** The `amountUsd` logic of `save`. */
  function Convert(amount: real, currency: string, call: RatesCall): Conversion
  {
    if currency == "USD" then Conversion(Some(Round2(amount)), [])
    else match call
      case Threw => Conversion(Some(amount), ["Currency conversion unavailable, saving without conversion"])
      case Returned(res) =>
        if res.None? || res.value.rates.None? then Conversion(None, [])
        else match Rate(res, currency)
          case Some(rate) => Conversion(Some(Round2(amount / rate)), [])
          case None => Conversion(Some(amount), ["Unable to convert " + currency + " to USD"])
  }

  /** The five ways the USD amount comes out. */
  lemma ConvertCases(amount: real, currency: string, call: RatesCall)
    ensures currency == "USD" ==> Convert(amount, currency, call) == Conversion(Some(Round2(amount)), [])
    ensures currency != "USD" && call.Threw? ==> Convert(amount, currency, call).amountUsd == Some(amount)
    ensures currency != "USD" && call.Returned? && (call.res.None? || call.res.value.rates.None?) ==>
              Convert(amount, currency, call) == Conversion(None, [])
    ensures currency != "USD" && call.Returned? && Rate(call.res, currency).Some? ==>
              Convert(amount, currency, call) == Conversion(Some(Round2(amount / Rate(call.res, currency).value)), [])
    ensures currency != "USD" && call.Returned? && call.res.Some? && call.res.value.rates.Some? && Rate(call.res, currency).None? ==>
              Convert(amount, currency, call) == Conversion(Some(amount), ["Unable to convert " + currency + " to USD"])
  {
  }

  /** A US dollar amount is stored within half a cent of what was typed. */
  lemma UsdAmountIsRounded(amount: real, call: RatesCall)
    ensures var usd := Convert(amount, "USD", call).amountUsd;
            usd.Some? && amount - 0.005 <= usd.value <= amount + 0.005
  {
    Round2Error(amount);
  }

  /** The expense `save` submits. */
  function PayloadOf(f: FormValue, conv: Conversion): (e: Expense)
    requires FormValid(f)
    ensures e.id.None? && e.category == f.category.value && e.amount == f.amount
    ensures e.currency == Some(CurrencyOf(f)) && e.amountUsd == conv.amountUsd && e.date == f.date
    ensures e.receipt.Some? <==> f.receipt.Some? && f.receipt.value != ""
    ensures e.receipt.Some? ==> e.receipt == f.receipt
  {
    Expense(None, f.category.value, f.amount, Some(CurrencyOf(f)), conv.amountUsd, f.date,
            if f.receipt.Some? && f.receipt.value != "" then f.receipt else None)
  }

  const SavedMessage := "✅ Expense added successfully"
  const FailedMessage := "❌ Failed to save expense"
  const InvalidMessage := "Please fill all required fields"

  /** What `save` leaves: storage, the toasts it shows, and the record `add` resolved with. */
  datatype SaveOutcome = SaveOutcome(entries: Entries, notices: seq<string>, added: Option<Expense>)

  /** The rates `save` works with: requested only for a currency other than USD. */
  function RatesFor(currency: string, entries: Entries, writable: bool, online: bool, ratesGet: Fetch<Rates>): RatesResult
  {
    if currency == "USD" then RatesResult(entries, None) else RatesSpec(entries, writable, online, ratesGet)
  }

  /** The part of `save()` after validation and before the final toast: convert,
      build the payload, add it. `notices` are the conversion toasts. */
  function SubmitSpec(f: FormValue, entries: Entries, writable: bool, online: bool, ratesGet: Fetch<Rates>,
                      post: Fetch<Expense>, t: Tickets, now: int): SaveOutcome
    requires FormValid(f)
  {
    var rs := RatesFor(CurrencyOf(f), entries, writable, online, ratesGet);
    var conv := Convert(f.amount.value, CurrencyOf(f), Returned(rs.rates));
    var a := AddSpec(rs.entries, writable, PayloadOf(f, conv), online, post, t, now);
    SaveOutcome(a.entries, conv.notices, a.record)
  }

  /** `save()` as one step. */
  function SaveSpec(f: FormValue, entries: Entries, writable: bool, online: bool, ratesGet: Fetch<Rates>,
                    post: Fetch<Expense>, t: Tickets, now: int): SaveOutcome
  {
    if !FormValid(f) then SaveOutcome(entries, [InvalidMessage], None)
    else
      var s := SubmitSpec(f, entries, writable, online, ratesGet, post, t, now);
      SaveOutcome(s.entries, s.notices + [if s.added.Some? then SavedMessage else FailedMessage], s.added)
  }

  /** An invalid form only shows the reminder: nothing is stored or submitted. */
  lemma InvalidFormNeverSubmits(f: FormValue, entries: Entries, writable: bool, online: bool,
                                ratesGet: Fetch<Rates>, post: Fetch<Expense>, t: Tickets, now: int)
    requires !FormValid(f)
    ensures SaveSpec(f, entries, writable, online, ratesGet, post, t, now) == SaveOutcome(entries, [InvalidMessage], None)
  {
  }

  /** Saving a valid form offline with working storage always succeeds, under a local id,
      and the outbox gains exactly one item. */
  lemma OfflineSaveQueues(f: FormValue, entries: Entries, ratesGet: Fetch<Rates>, post: Fetch<Expense>, t: Tickets, now: int)
    requires FormValid(f)
    ensures var o := SaveSpec(f, entries, true, false, ratesGet, post, t, now);
            && o.added.Some? && o.added.value.id == Some(Str(LocalId(t)))
            && o.notices[|o.notices| - 1] == SavedMessage
            && |OutboxOf(o.entries)| == |OutboxOf(entries)| + 1
  {
    var currency := CurrencyOf(f);
    var rs := RatesFor(currency, entries, true, false, ratesGet);
    assert OutboxOf(rs.entries) == OutboxOf(entries) by {
      assert Get(rs.entries, OfflineOutbox) == Get(entries, OfflineOutbox);
    }
    var conv := Convert(f.amount.value, currency, Returned(rs.rates));
    OfflineAddDefers(rs.entries, PayloadOf(f, conv), post, t, now);
  }

  // ---------------------------------------------------------------------------
  // Receipts

  /** The file the input holds: its name, MIME type and size in bytes. */
  datatype FileInfo = FileInfo(name: string, mimeType: string, size: int)

  const MaxReceiptBytes := 5 * 1024 * 1024

  predicate AcceptsFile(file: FileInfo)
  {
    StartsWith(file.mimeType, "image/") && file.size <= MaxReceiptBytes
  }

  // ---------------------------------------------------------------------------
  // The component

  class AddExpenseComponent {
    const expenses: ExpensesService
    const toast: ToastService
    var form: FormValue
    var loading: bool
    var selectedCategory: Option<string>
    var receiptPreview: Option<string>
    var receiptFileName: Option<string>
    var conversionRate: Option<real>
    var convertedAmount: Option<real>

    ghost predicate Valid()
      reads this, toast
    {
      expenses.Valid() && toast.Valid()
    }

    constructor (expenses: ExpensesService, toast: ToastService, today: DateText)
      requires expenses.Valid() && toast.Valid()
      ensures this.expenses == expenses && this.toast == toast && Valid()
      ensures form == ResetForm(today) && !loading && selectedCategory.None?
      ensures receiptPreview.None? && receiptFileName.None? && conversionRate.None? && convertedAmount.None?
    {
      this.expenses := expenses;
      this.toast := toast;
      form := ResetForm(today);
      loading := false;
      selectedCategory := None;
      receiptPreview, receiptFileName := None, None;
      conversionRate, convertedAmount := None, None;
    }

    /** `updateConversion()`: clear the preview when there is nothing to convert;
        otherwise fetch the rates and show the conversion when the rate is usable
        (and leave the previous preview when it is not). */
    method UpdateConversion(nav: Navigator, get: Fetch<Rates>)
      modifies this`conversionRate, this`convertedAmount, expenses.store`entries
      ensures var f := form;
              f.amount.None? || f.amount.value <= 0.0 || f.currency.None? || f.currency.value == "" || f.currency.value == "USD" ==>
                convertedAmount.None? && conversionRate.None? && expenses.store.entries == old(expenses.store.entries)
      ensures var f := form;
              !(f.amount.None? || f.amount.value <= 0.0 || f.currency.None? || f.currency.value == "" || f.currency.value == "USD") ==>
                var rs := RatesSpec(old(expenses.store.entries), expenses.store.writable, IsOnline(nav), get);
                var rate := Rate(rs.rates, f.currency.value);
                && expenses.store.entries == rs.entries
                && (rate.Some? ==> conversionRate == rate && convertedAmount == Some(Round2(f.amount.value / rate.value)))
                && (rate.None? ==> conversionRate == old(conversionRate) && convertedAmount == old(convertedAmount))
    {
      var amount := form.amount;
      var currency := form.currency;
      if amount.None? || amount.value <= 0.0 || currency.None? || currency.value == "" || currency.value == "USD" {
        convertedAmount := None;
        conversionRate := None;
        return;
      }
      var res := expenses.GetRates(nav, get);
      var rate := Rate(res, currency.value);
      if rate.Some? {
        conversionRate := rate;
        convertedAmount := Some(Round2(amount.value / rate.value));
      }
    }

    /** `onFileChange(event)`; `dataUrl` is what the file reader produces for the file. */
    method OnFileChange(files: seq<FileInfo>, dataUrl: string)
      requires toast.Valid()
      modifies this`receiptPreview, this`receiptFileName, this`form, toast
      ensures toast.Valid()
      ensures |files| == 0 ==>
                receiptPreview.None? && receiptFileName.None? && form == old(form)
                && toast.toasts == old(toast.toasts) && toast.nextId == old(toast.nextId)
      ensures |files| > 0 && !StartsWith(files[0].mimeType, "image/") ==>
                toast.toasts == old(toast.toasts) + [Toast(old(toast.nextId), "Please select a valid image file")]
                && toast.nextId == old(toast.nextId) + 1
                && receiptPreview == old(receiptPreview) && receiptFileName == old(receiptFileName) && form == old(form)
      ensures |files| > 0 && StartsWith(files[0].mimeType, "image/") && files[0].size > MaxReceiptBytes ==>
                toast.toasts == old(toast.toasts) + [Toast(old(toast.nextId), "File size must be less than 5MB")]
                && toast.nextId == old(toast.nextId) + 1
                && receiptPreview == old(receiptPreview) && receiptFileName == old(receiptFileName) && form == old(form)
      ensures |files| > 0 && AcceptsFile(files[0]) ==>
                receiptFileName == Some(files[0].name) && receiptPreview == Some(dataUrl)
                && form == old(form).(receipt := Some(dataUrl))
                && toast.toasts == old(toast.toasts) && toast.nextId == old(toast.nextId)
    {
      if |files| == 0 {
        receiptPreview := None;
        receiptFileName := None;
        return;
      }
      var file := files[0];
      if !StartsWith(file.mimeType, "image/") {
        toast.Show("Please select a valid image file");
        return;
      }
      if file.size > MaxReceiptBytes {
        toast.Show("File size must be less than 5MB");
        return;
      }
      receiptFileName := Some(file.name);
      receiptPreview := Some(dataUrl);
      form := form.(receipt := Some(dataUrl));
    }

    /** The `amountUsd` part of `save()`: an unusable rate is reported with a toast. */
    method ResolveAmountUsd(amountNum: real, currency: string, nav: Navigator, ratesGet: Fetch<Rates>)
      returns (amountUsd: Option<real>)
      requires toast.Valid()
      modifies toast, expenses.store`entries
      ensures toast.Valid()
      ensures var rs := RatesFor(currency, old(expenses.store.entries), expenses.store.writable, IsOnline(nav), ratesGet);
              var conv := Convert(amountNum, currency, Returned(rs.rates));
              && expenses.store.entries == rs.entries
              && amountUsd == conv.amountUsd
              && Messages(toast.toasts) == Messages(old(toast.toasts)) + conv.notices
    {
      amountUsd := None;
      if currency == "USD" {
        amountUsd := Some(Round2(amountNum));
      } else {
        var res := expenses.GetRates(nav, ratesGet);
        if res.Some? && res.value.rates.Some? {
          var rate := Rate(res, currency);
          if rate.Some? {
            amountUsd := Some(Round2(amountNum / rate.value));
          } else {
            toast.Show("Unable to convert " + currency + " to USD");
            amountUsd := Some(amountNum);
          }
        }
      }
    }

    /** Convert, build the payload and add it, for a form that passed validation. */
    method Submit(f: FormValue, nav: Navigator, ratesGet: Fetch<Rates>, post: Fetch<Expense>, t: Tickets, now: int)
      returns (added: Option<Expense>)
      requires FormValid(f) && toast.Valid() && expenses.Valid()
      modifies toast, expenses.store`entries
      ensures toast.Valid()
      ensures var s := SubmitSpec(f, old(expenses.store.entries), expenses.store.writable, IsOnline(nav), ratesGet, post, t, now);
              && expenses.store.entries == s.entries
              && added == s.added
              && Messages(toast.toasts) == Messages(old(toast.toasts)) + s.notices
    {
      var amountNum := f.amount.value;
      var currency := if f.currency.Some? && f.currency.value != "" then f.currency.value else "USD";
      ghost var rs := RatesFor(currency, expenses.store.entries, expenses.store.writable, IsOnline(nav), ratesGet);
      var amountUsd := ResolveAmountUsd(amountNum, currency, nav, ratesGet);
      ghost var conv := Convert(amountNum, currency, Returned(rs.rates));
      var payload := Expense(None, f.category.value, f.amount, Some(currency), amountUsd, f.date,
                             if f.receipt.Some? && f.receipt.value != "" then f.receipt else None);
      assert payload == PayloadOf(f, conv);
      added := expenses.Add(payload, nav, post, t, now);
    }

    /** The end of `save()`: report the outcome, reset the form after a success, stop loading. */
    method Finish(added: Option<Expense>, today: DateText)
      requires toast.Valid()
      modifies this, toast
      ensures toast.Valid() && !loading
      ensures Messages(toast.toasts) == Messages(old(toast.toasts)) + [if added.Some? then SavedMessage else FailedMessage]
      ensures added.Some? ==>
                form == ResetForm(today) && selectedCategory.None? && receiptPreview.None? && receiptFileName.None?
                && convertedAmount.None? && conversionRate.None?
      ensures added.None? ==>
                form == old(form) && selectedCategory == old(selectedCategory)
                && receiptPreview == old(receiptPreview) && receiptFileName == old(receiptFileName)
                && convertedAmount == old(convertedAmount) && conversionRate == old(conversionRate)
    {
      if added.Some? {
        toast.Show(SavedMessage);
        form := ResetForm(today);
        selectedCategory := None;
        receiptPreview, receiptFileName := None, None;
        convertedAmount, conversionRate := None, None;
      } else {
        toast.Show(FailedMessage);
      }
      loading := false;
    }

    /** `save()`; `ratesGet` answers the rates request and `post` the expense POST,
        when they are made. `today` is the date the reset form gets. */
    method Save(nav: Navigator, ratesGet: Fetch<Rates>, post: Fetch<Expense>, t: Tickets, now: int, today: DateText)
      returns (added: Option<Expense>)
      requires Valid()
      modifies this, toast, expenses.store`entries
      ensures Valid()
      ensures FormValid(old(form)) ==> !loading
      ensures !FormValid(old(form)) ==> loading == old(loading)
      ensures var o := SaveSpec(old(form), old(expenses.store.entries), expenses.store.writable, IsOnline(nav), ratesGet, post, t, now);
              && expenses.store.entries == o.entries
              && added == o.added
              && Messages(toast.toasts) == Messages(old(toast.toasts)) + o.notices
      ensures added.Some? ==>
                form == ResetForm(today) && selectedCategory.None? && receiptPreview.None? && receiptFileName.None?
                && convertedAmount.None? && conversionRate.None?
      ensures added.None? ==>
                form == old(form) && selectedCategory == old(selectedCategory)
                && receiptPreview == old(receiptPreview) && receiptFileName == old(receiptFileName)
                && convertedAmount == old(convertedAmount) && conversionRate == old(conversionRate)
    {
      if !FormValid(form) {
        toast.Show(InvalidMessage);
        return None;
      }
      loading := true;
      added := Submit(form, nav, ratesGet, post, t, now);
      Finish(added, today);
    }
  }
}
