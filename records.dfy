/**
 * The values the front end keeps in browser storage and passes between
 * components: chat messages, the buyer's data, the service being sold, tarot
 * cards, and the snapshot a component saves before it redirects to checkout.
 *
 * Browser storage holds text. A value the application wrote with
 * `JSON.stringify` is kept here as `Json(doc)`, so that `JSON.parse` of it
 * gives the document back; any other text is `Text(s)`. The model never
 * spells out the JSON encoding itself.
 */
module Records {
  import opened Wrappers

  /** One chat bubble: who wrote it, its text, and the id a reply is given so that it can be blocked. */
  datatype Message = Message(fromUser: bool, text: string, id: Option<string>)

  /** What the data form collects about the buyer. */
  datatype UserData = UserData(email: string, firstName: string, lastName: string)

  /** What a component is selling, as it hands it to the data form. */
  datatype ServiceConfig = ServiceConfig(serviceId: string, serviceName: string, amount: int, description: string)

  /** A drawn tarot card and the texts that can describe it. */
  datatype Card = Card(name: string, descriptions: seq<string>)

  /**
   * The object handed to `savePaymentData` before the redirect to checkout.
   * A chat widget stores its conversation under a field whose name differs
   * between widgets (`conversationHistory`, `messages`, `chatMessages`), and
   * may add flat tags (a service id and name) and nested objects (form data,
   * chart data).
   */
  datatype PaymentSnapshot =
    | ChatSnapshot(historyField: string, history: seq<Message>, count: nat, userData: Option<UserData>,
                   blocked: Option<string>, tags: map<string, string>, attachments: map<string, map<string, string>>)
    | BuyerSnapshot(buyer: UserData, service: ServiceConfig)
    | CardSnapshot(cards: seq<Card>, descriptionsText: string)
  {
    /** `saved[field]` when it is a non-empty message list, which is what the widgets test before restoring. */
    function HistoryUnder(field: string): (r: Option<seq<Message>>)
      ensures r.Some? ==> |r.value| > 0
    {
      if ChatSnapshot? && historyField == field && |history| > 0 then Some(history) else None
    }

    /** `saved.userMessageCount`, absent unless a chat widget saved the snapshot. */
    function SavedCount(): Option<nat>
    {
      if ChatSnapshot? then Some(count) else None
    }

    /** `saved.userData`, absent when it was saved as null. */
    function SavedUser(): Option<UserData>
    {
      match this
      case ChatSnapshot(_, _, _, u, _, _, _) => u
      case BuyerSnapshot(b, _) => Some(b)
      case CardSnapshot(_, _) => None
    }

    /** `saved[name]` for a nested object. */
    function Attachment(name: string): Option<map<string, string>>
    {
      if ChatSnapshot? && name in attachments then Some(attachments[name]) else None
    }
  }

  /** A snapshot as stored: the object plus the `savedAt` time stamp `savePaymentData` adds. */
  datatype PaymentRecord = PaymentRecord(snapshot: PaymentSnapshot, savedAt: string)

  /** The JSON documents the application writes to storage. */
  datatype Doc =
    | MessagesDoc(messages: seq<Message>)
    | UserDoc(user: UserData)
    | FieldsDoc(fields: map<string, string>)
    | PaymentDoc(payment: PaymentRecord)

  /** One storage value. */
  datatype Stored = Text(text: string) | Json(doc: Doc)

  /** The page address: path and query parameters (one value per name). */
  datatype Url = Url(pathname: string, query: map<string, string>)

  /** A storage map: `sessionStorage` or `localStorage`. */
  type Storage = map<string, Stored>

  /**
   * `getItem(key)` as raw text. A JSON document never reads as the empty
   * string, nor as `"true"`, nor as a decimal number; the placeholder below
   * stands for its text.
   */
  function RawItem(s: Storage, key: string): (r: Option<string>)
    ensures r.Some? <==> key in s
    ensures key in s && s[key].Json? ==> r == Some("{}")
  {
    if key !in s then None
    else match s[key]
      case Text(t) => Some(t)
      case Json(_) => Some("{}")
  }

  /** The entry under `key` is the same in both storage states (present in both with one value, or in neither). */
  predicate Untouched(s: Storage, t: Storage, key: string)
  {
    (key in s <==> key in t) && (key in s ==> s[key] == t[key])
  }

  /** Writing another key leaves an entry untouched. */
  lemma WriteElsewhere(s: Storage, k: string, x: Stored, key: string)
    requires k != key
    ensures Untouched(s[k := x], s, key)
  {
  }

  /** Removing other keys leaves an entry untouched. */
  lemma RemoveElsewhere(s: Storage, ks: set<string>, key: string)
    requires key !in ks
    ensures Untouched(s - ks, s, key)
  {
  }

  /** Merging entries for other keys leaves an entry untouched. */
  lemma MergeElsewhere(s: Storage, m: Storage, key: string)
    requires key !in m
    ensures Untouched(s + m, s, key)
  {
  }

  /** `!!getItem(key)`: present and not the empty string. */
  predicate HasItem(s: Storage, key: string)
  {
    RawItem(s, key).Some? && RawItem(s, key).value != ""
  }

  /** `getItem(key) === 'true'`. */
  predicate IsTrueItem(s: Storage, key: string)
  {
    RawItem(s, key) == Some("true")
  }

  /**
   * What a `JSON.parse` of a stored value followed by the use a component
   * makes of it gives: nothing stored, a parse (or shape) failure, or the value.
   */
  datatype Parsed<T> = Absent | Malformed | Parsed(value: T)

  /** `JSON.parse(getItem(key)).map(...)` guarded by `if (saved)`: a message list, or an error thrown inside the `try`. */
  function ReadMessages(s: Storage, key: string): (r: Parsed<seq<Message>>)
    ensures r == Absent <==> !HasItem(s, key)
    ensures r.Parsed? ==> key in s && s[key] == Json(MessagesDoc(r.value))
    ensures key in s && s[key].Json? && s[key].doc.MessagesDoc? ==> r == Parsed(s[key].doc.messages)
  {
    if !HasItem(s, key) then Absent
    else match s[key]
      case Json(MessagesDoc(ms)) => Parsed(ms)
      case _ => Malformed
  }

  /** `JSON.parse(getItem('userData'))` guarded by `if (saved)`. */
  function ReadUser(s: Storage, key: string): (r: Parsed<UserData>)
    ensures r == Absent <==> !HasItem(s, key)
    ensures r.Parsed? ==> key in s && s[key] == Json(UserDoc(r.value))
    ensures key in s && s[key].Json? && s[key].doc.UserDoc? ==> r == Parsed(s[key].doc.user)
  {
    if !HasItem(s, key) then Absent
    else match s[key]
      case Json(UserDoc(u)) => Parsed(u)
      case _ => Malformed
  }

  /** An untouched entry reads the same, whatever it is read as. */
  lemma UntouchedReads(s: Storage, t: Storage, key: string)
    requires Untouched(s, t, key)
    ensures RawItem(s, key) == RawItem(t, key) && HasItem(s, key) == HasItem(t, key)
    ensures ReadMessages(s, key) == ReadMessages(t, key) && ReadUser(s, key) == ReadUser(t, key)
  {
  }
}
