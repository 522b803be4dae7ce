/** The records the services exchange with the server and keep in storage. */
module Records {
  import opened Js

  /** An expense id: a number assigned by the server, or a `local-…` string made offline. */
  datatype Ident = Num(n: int) | Str(s: string)

  /** JavaScript truthiness of an id value (0 and "" are falsy). */
  predicate TruthyIdent(k: Ident)
  {
    match k
    case Num(n) => n != 0
    case Str(s) => s != ""
  }

  /** A date string as `new Date(text)` sees it: empty (falsy), unparseable (NaN time),
      or a calendar day, given by its day ordinal (see Dashboard.DayOrdinal). */
  datatype DateText = NoDate | BadDate | OnDay(day: int)

  /** The expense record (optional fields are Option). */
  datatype Expense = Expense(
    id: Option<Ident>,
    category: string,
    amount: Option<real>,
    currency: Option<string>,
    amountUsd: Option<real>,
    date: DateText,
    receipt: Option<string>)

  datatype HttpMethod = POST | PUT | DELETE

  /** The body of a deferred POST: the expense fields plus the `_localId` tag. */
  datatype Body = Body(expense: Expense, localId: Option<string>)

  /** A deferred write operation in the outbox (`verb` is its `method` field). */
  datatype OutboxItem = OutboxItem(
    id: Option<string>,
    url: string,
    verb: HttpMethod,
    body: Option<Body>,
    createdAt: int)

  datatype Category = Category(id: string, labelText: string, icon: Option<string>)

  /** The exchange-rate response: `rates` maps a currency code to units per US dollar. */
  datatype Rates = Rates(rates: Option<map<string, real>>)

  datatype UserProfile = UserProfile(name: string, profileImage: string, email: Option<string>)

  /** The outcome of one HTTP request: the decoded response, or a failure
      (network error, non-2xx status). */
  datatype Fetch<+T> = Fetched(value: T) | Failed
}
