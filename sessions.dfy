/**
 * core/models.py: the conversation record `User`, its JSON form, the key/value session store it is
 * kept in (one JSON string per chat id) and the `bot_users` table it is upserted into.
 */
module Sessions {
  import opened Wrappers
  import opened Text

  /** The session record. `chatId` must be positive; every other field may be None. */
  datatype User = User(
    chatId: int,
    name: Option<string>,
    fullName: Option<string>,
    botState: Option<string>,
    botStateValue: Option<int>,
    lastMessageId: Option<int>,
    reportId: Option<int>)

  /** The constraint the record's validation checks: `chat_id` is a PositiveInt. */
  predicate ValidUser(u: User) {
    u.chatId > 0
  }

  /** `User(chat_id=..., name=..., full_name=..., bot_state=...)`: unnamed fields default to None. */
  function NewUser(chatId: int, name: Option<string>, fullName: Option<string>, botState: Option<string>): (u: User)
    requires chatId > 0
    ensures ValidUser(u) && u.chatId == chatId && u.name == name && u.fullName == fullName
    ensures u.botState == botState
    ensures u.botStateValue == None && u.lastMessageId == None && u.reportId == None
  {
    User(chatId, name, fullName, botState, None, None, None)
  }

  // ---------------------------------------------------------------------------------------------
  // JSON text of a record: the compact form the record's `model_dump_json` writes, and a reader
  // for that form.

  function HexValue(c: char): Option<nat> {
    if IsDigit(c) then Some(DigitValue(c))
    else if 'a' <= c <= 'f' then Some(c as int - 'a' as int + 10)
    else None
  }

  /** How one character of a string value is written inside the quotes. */
  function EscapeChar(c: char): string {
    if c == '"' then "\\\""
    else if c == '\\' then "\\\\"
    else if c == '\n' then "\\n"
    else if c == '\r' then "\\r"
    else if c == '\t' then "\\t"
    else if c == '\U{0008}' then "\\b"
    else if c == '\U{000C}' then "\\f"
    else if c < ' ' then "\\u00" + [HexDigit(c as int / 16), HexDigit(c as int % 16)]
    else [c]
  }

  function EscapeString(v: string): string {
    if |v| == 0 then "" else EscapeChar(v[0]) + EscapeString(v[1..])
  }

  function Quote(v: string): string {
    "\"" + EscapeString(v) + "\""
  }

  function Prepend(c: char, r: Option<(string, string)>): Option<(string, string)> {
    match r
    case Some((v, rest)) => Some(([c] + v, rest))
    case None => None
  }

  /** Reads a string value up to its closing quote; returns the value and the text after the quote. */
  function Unquote(s: string): Option<(string, string)>
    decreases |s|
  {
    if |s| == 0 then None
    else if s[0] == '"' then Some(("", s[1..]))
    else if s[0] == '\\' then
      if |s| < 2 then None
      else if s[1] == '"' then Prepend('"', Unquote(s[2..]))
      else if s[1] == '\\' then Prepend('\\', Unquote(s[2..]))
      else if s[1] == 'n' then Prepend('\n', Unquote(s[2..]))
      else if s[1] == 'r' then Prepend('\r', Unquote(s[2..]))
      else if s[1] == 't' then Prepend('\t', Unquote(s[2..]))
      else if s[1] == 'b' then Prepend('\U{0008}', Unquote(s[2..]))
      else if s[1] == 'f' then Prepend('\U{000C}', Unquote(s[2..]))
      else if s[1] == 'u' && |s| >= 6 && s[2] == '0' && s[3] == '0' then
        match (HexValue(s[4]), HexValue(s[5]))
        case (Some(hi), Some(lo)) => Prepend((hi * 16 + lo) as char, Unquote(s[6..]))
        case _ => None
      else None
    else if s[0] < ' ' then None
    else Prepend(s[0], Unquote(s[1..]))
  }

  lemma UnquoteEscapeChar(c: char, t: string)
    ensures Unquote(EscapeChar(c) + t) == Prepend(c, Unquote(t))
  {
    var e := EscapeChar(c);
    if c < ' ' && c != '\n' && c != '\r' && c != '\t' && c != '\U{0008}' && c != '\U{000C}' {
      var hi, lo := c as int / 16, c as int % 16;
      assert HexValue(HexDigit(hi)) == Some(hi);
      assert HexValue(HexDigit(lo)) == Some(lo);
      assert (e + t)[6..] == t;
    } else if |e| == 2 {
      assert (e + t)[2..] == t;
    } else {
      assert (e + t)[1..] == t;
    }
  }

  /** Reading back an escaped string value gives the value and leaves the rest of the text. */
  lemma {:induction false} UnquoteQuote(v: string, rest: string)
    ensures Unquote(EscapeString(v) + "\"" + rest) == Some((v, rest))
  {
    if |v| == 0 {
      assert EscapeString(v) + "\"" + rest == "\"" + rest;
      assert ("\"" + rest)[1..] == rest;
    } else {
      var t := EscapeString(v[1..]) + "\"" + rest;
      assert EscapeString(v) + "\"" + rest == EscapeChar(v[0]) + t;
      UnquoteEscapeChar(v[0], t);
      UnquoteQuote(v[1..], rest);
      assert [v[0]] + v[1..] == v;
    }
  }

  function DigitRun(s: string): (n: nat)
    ensures n <= |s| && AllDigits(s[..n])
    ensures n < |s| ==> !IsDigit(s[n])
  {
    if |s| > 0 && IsDigit(s[0]) then
      var k := DigitRun(s[1..]);
      assert s[..k + 1] == [s[0]] + s[1..][..k];
      k + 1
    else 0
  }

  /** Reads a run of at least one decimal digit at the start of the text. */
  function ReadNat(s: string): Option<(nat, string)> {
    var n := DigitRun(s);
    if n == 0 then None else Some((DigitsValue(s[..n]), s[n..]))
  }

  /** Reads an integer at the start of the text: an optional minus sign and a run of digits. */
  function ReadInt(s: string): Option<(int, string)> {
    if |s| > 0 && s[0] == '-' then
      match ReadNat(s[1..])
      case Some((m, rest)) => Some((0 - m, rest))
      case None => None
    else
      match ReadNat(s)
      case Some((m, rest)) => Some((m, rest))
      case None => None
  }

  lemma {:induction false} DigitRunOfDigits(d: string, rest: string)
    requires AllDigits(d)
    requires rest == [] || !IsDigit(rest[0])
    ensures DigitRun(d + rest) == |d|
  {
    if |d| > 0 {
      assert (d + rest)[1..] == d[1..] + rest;
      DigitRunOfDigits(d[1..], rest);
    }
  }

  lemma ReadNatOf(n: nat, rest: string)
    requires rest == [] || !IsDigit(rest[0])
    ensures ReadNat(NatToString(n) + rest) == Some((n, rest))
  {
    var d := NatToString(n);
    DigitRunOfDigits(d, rest);
    assert (d + rest)[..|d|] == d;
    assert (d + rest)[|d|..] == rest;
    DigitsValueOfNatToString(n);
  }

  lemma ReadIntOfNegative(i: int, rest: string)
    requires i < 0
    requires rest == [] || !IsDigit(rest[0])
    ensures ReadInt(IntToString(i) + rest) == Some((i, rest))
  {
    var d := NatToString(-i);
    var s := IntToString(i) + rest;
    assert s == "-" + (d + rest);
    assert |s| > 0 && s[0] == '-';
    assert s[1..] == d + rest;
    ReadNatOf(-i, rest);
  }

  lemma ReadIntOfNonNegative(i: int, rest: string)
    requires i >= 0
    requires rest == [] || !IsDigit(rest[0])
    ensures ReadInt(IntToString(i) + rest) == Some((i, rest))
  {
    var d := NatToString(i);
    ReadNatOf(i, rest);
    assert (d + rest)[0] == d[0];
  }

  lemma ReadIntOfIntToString(i: int, rest: string)
    requires rest == [] || !IsDigit(rest[0])
    ensures ReadInt(IntToString(i) + rest) == Some((i, rest))
  {
    if i < 0 {
      ReadIntOfNegative(i, rest);
    } else {
      ReadIntOfNonNegative(i, rest);
    }
  }

  function OptStringJson(o: Option<string>): string {
    match o
    case None => "null"
    case Some(v) => Quote(v)
  }

  function OptIntJson(o: Option<int>): string {
    match o
    case None => "null"
    case Some(i) => IntToString(i)
  }

  function ReadOptString(s: string): Option<(Option<string>, string)> {
    if "null" <= s then Some((None, s[4..]))
    else if |s| > 0 && s[0] == '"' then
      match Unquote(s[1..])
      case Some((v, rest)) => Some((Some(v), rest))
      case None => None
    else None
  }

  function ReadOptInt(s: string): Option<(Option<int>, string)> {
    if "null" <= s then Some((None, s[4..]))
    else
      match ReadInt(s)
      case Some((i, rest)) => Some((Some(i), rest))
      case None => None
  }

  lemma ReadOptStringOf(o: Option<string>, rest: string)
    ensures ReadOptString(OptStringJson(o) + rest) == Some((o, rest))
  {
    match o
    case None =>
      assert ("null" + rest)[4..] == rest;
    case Some(v) =>
      var t := OptStringJson(o) + rest;
      assert t == "\"" + (EscapeString(v) + "\"" + rest);
      assert t[1..] == EscapeString(v) + "\"" + rest;
      UnquoteQuote(v, rest);
  }

  lemma ReadOptIntOf(o: Option<int>, rest: string)
    requires rest == [] || !IsDigit(rest[0])
    ensures ReadOptInt(OptIntJson(o) + rest) == Some((o, rest))
  {
    match o
    case None =>
      assert ("null" + rest)[4..] == rest;
    case Some(i) =>
      ReadIntOfIntToString(i, rest);
      var t := IntToString(i) + rest;
      assert !("null" <= t) by {
        if i < 0 {
          assert t[0] == '-';
        } else {
          assert t[0] == NatToString(i)[0];
        }
      }
  }

  /** The text `,"name":` that opens a field after the first. */
  function FieldPrefix(name: string): string {
    ",\"" + name + "\":"
  }

  function StringField(name: string, o: Option<string>): string {
    FieldPrefix(name) + OptStringJson(o)
  }

  function IntField(name: string, o: Option<int>): string {
    FieldPrefix(name) + OptIntJson(o)
  }

  function Expect(lit: string, s: string): Option<string> {
    if lit <= s then Some(s[|lit|..]) else None
  }

  function ReadStringField(name: string, s: string): Option<(Option<string>, string)> {
    var s0 :- Expect(FieldPrefix(name), s);
    ReadOptString(s0)
  }

  function ReadIntField(name: string, s: string): Option<(Option<int>, string)> {
    var s0 :- Expect(FieldPrefix(name), s);
    ReadOptInt(s0)
  }

  /** `model_validate_json(text)` on the JSON form above; None where validation would fail. */
  function LoadUser(s: string): Option<User> {
    var s0 :- Expect("{\"chat_id\":", s);
    var (chatId, s1) :- ReadInt(s0);
    LoadTexts(chatId, s1)
  }

  function LoadTexts(chatId: int, s: string): Option<User> {
    var (name, s0) :- ReadStringField("name", s);
    var (fullName, s1) :- ReadStringField("full_name", s0);
    var (botState, s2) :- ReadStringField("bot_state", s1);
    LoadNumbers(User(chatId, name, fullName, botState, None, None, None), s2)
  }

  function LoadNumbers(u: User, s: string): Option<User> {
    var (value, s0) :- ReadIntField("bot_state_value", s);
    var (lastMessageId, s1) :- ReadIntField("last_message_id", s0);
    var (reportId, s2) :- ReadIntField("report_id", s1);
    if s2 == "}" && u.chatId > 0 then
      Some(u.(botStateValue := value, lastMessageId := lastMessageId, reportId := reportId))
    else None
  }

  lemma ExpectStep(lit: string, rest: string)
    ensures Expect(lit, lit + rest) == Some(rest)
  {
    assert (lit + rest)[|lit|..] == rest;
  }

  lemma ReadStringFieldOf(name: string, o: Option<string>, rest: string)
    ensures ReadStringField(name, StringField(name, o) + rest) == Some((o, rest))
  {
    assert StringField(name, o) + rest == FieldPrefix(name) + (OptStringJson(o) + rest);
    ExpectStep(FieldPrefix(name), OptStringJson(o) + rest);
    ReadOptStringOf(o, rest);
  }

  lemma ReadIntFieldOf(name: string, o: Option<int>, rest: string)
    requires rest == [] || !IsDigit(rest[0])
    ensures ReadIntField(name, IntField(name, o) + rest) == Some((o, rest))
  {
    assert IntField(name, o) + rest == FieldPrefix(name) + (OptIntJson(o) + rest);
    ExpectStep(FieldPrefix(name), OptIntJson(o) + rest);
    ReadOptIntOf(o, rest);
  }

  function NumbersJson(u: User): string {
    IntField("bot_state_value", u.botStateValue)
    + (IntField("last_message_id", u.lastMessageId)
    + (IntField("report_id", u.reportId) + "}"))
  }

  function TextsJson(u: User): string {
    StringField("name", u.name)
    + (StringField("full_name", u.fullName)
    + (StringField("bot_state", u.botState) + NumbersJson(u)))
  }

  lemma LoadNumbersOf(base: User, u: User)
    requires ValidUser(base)
    requires u == base.(botStateValue := u.botStateValue, lastMessageId := u.lastMessageId, reportId := u.reportId)
    ensures LoadNumbers(base, NumbersJson(u)) == Some(u)
  {
    var t2 := IntField("report_id", u.reportId) + "}";
    var t1 := IntField("last_message_id", u.lastMessageId) + t2;
    ReadIntFieldOf("bot_state_value", u.botStateValue, t1);
    ReadIntFieldOf("last_message_id", u.lastMessageId, t2);
    ReadIntFieldOf("report_id", u.reportId, "}");
  }

  lemma LoadTextsOf(u: User)
    requires ValidUser(u)
    ensures LoadTexts(u.chatId, TextsJson(u)) == Some(u)
  {
    var t2 := StringField("bot_state", u.botState) + NumbersJson(u);
    var t1 := StringField("full_name", u.fullName) + t2;
    ReadStringFieldOf("name", u.name, t1);
    ReadStringFieldOf("full_name", u.fullName, t2);
    ReadStringFieldOf("bot_state", u.botState, NumbersJson(u));
    LoadNumbersOf(User(u.chatId, u.name, u.fullName, u.botState, None, None, None), u);
  }

  /** `model_dump_json()`: the record as compact JSON, fields in declaration order. */
  function DumpUser(u: User): string {
    "{\"chat_id\":" + (IntToString(u.chatId) + TextsJson(u))
  }

  /** Reading a record's JSON text gives back the record, equal in every field. */
  lemma {:induction false} LoadDumpUser(u: User)
    requires ValidUser(u)
    ensures LoadUser(DumpUser(u)) == Some(u)
  {
    var p0 := "{\"chat_id\":";
    var t0 := IntToString(u.chatId) + TextsJson(u);
    ExpectStep(p0, t0);
    ReadIntOfIntToString(u.chatId, TextsJson(u));
    LoadTextsOf(u);
  }

  // ---------------------------------------------------------------------------------------------
  // The stores.

  /** The session key of a chat: `str(chat_id)`. */
  function Key(chatId: int): string {
    IntToString(chatId)
  }

  lemma KeysDiffer(a: int, b: int)
    requires a != b
    ensures Key(a) != Key(b)
  {
    if Key(a) == Key(b) {
      IntToStringInjective(a, b);
    }
  }

  /** What reading the entry stored under a chat id's key yields. */
  function Lookup(entries: map<string, string>, chatId: int): Option<User> {
    if Key(chatId) in entries then LoadUser(entries[Key(chatId)]) else None
  }

  /** The entries after `save_to_redis` of `u`. */
  function Store(entries: map<string, string>, u: User): map<string, string> {
    entries[Key(u.chatId) := DumpUser(u)]
  }

  /** Save, then load: the same record comes back. */
  lemma LookupAfterStore(entries: map<string, string>, u: User)
    requires ValidUser(u)
    ensures Lookup(Store(entries, u), u.chatId) == Some(u)
  {
    LoadDumpUser(u);
  }

  /** Saving a record leaves the session of every other chat as it was. */
  lemma LookupOtherAfterStore(entries: map<string, string>, u: User, other: int)
    requires other != u.chatId
    ensures Lookup(Store(entries, u), other) == Lookup(entries, other)
  {
    KeysDiffer(other, u.chatId);
  }

  /** The entries after `User.set_state(chat_id, state)`: the stored record, or a fresh one, with the new state. */
  function StateSet(entries: map<string, string>, chatId: int, state: string): map<string, string>
    requires chatId > 0
  {
    var before := Lookup(entries, chatId);
    var base := if before.Some? then before.value else NewUser(chatId, None, None, None);
    Store(entries, base.(botState := Some(state)))
  }

  /** A row of `bot_users`, keyed by telegram_id. */
  datatype BotUserRow = BotUserRow(name: Option<string>, fullName: Option<string>, jsonDump: string)

  /** Every stored entry is the JSON text of a valid record saved under that record's own key. */
  ghost predicate WellFormed(entries: map<string, string>) {
    forall k :: k in entries ==>
      exists u :: ValidUser(u) && k == Key(u.chatId) && entries[k] == DumpUser(u)
  }

  class SessionStore {
    /** The session store: JSON text under `str(chat_id)`. */
    var entries: map<string, string>
    /** The durable `bot_users` table, one row per telegram_id. */
    var botUsers: map<int, BotUserRow>

    ghost predicate Valid()
      reads this
    {
      WellFormed(entries)
    }

    constructor ()
      ensures Valid() && entries == map[] && botUsers == map[]
    {
      entries := map[];
      botUsers := map[];
    }

    /** `User.get_from_redis(chat_id)`: None when nothing is stored under the chat's key. */
    method GetFromRedis(chatId: int) returns (user: Option<User>)
      requires Valid()
      ensures user == Lookup(entries, chatId)
      ensures Key(chatId) !in entries <==> user == None
      ensures user.Some? ==> ValidUser(user.value) && user.value.chatId == chatId
    {
      var k := Key(chatId);
      if k !in entries {
        return None;
      }
      var stored :| ValidUser(stored) && k == Key(stored.chatId) && entries[k] == DumpUser(stored);
      KeysDiffer2(chatId, stored.chatId);
      LoadDumpUser(stored);
      user := LoadUser(entries[k]);
    }

    static lemma KeysDiffer2(a: int, b: int)
      requires Key(a) == Key(b)
      ensures a == b
    {
      IntToStringInjective(a, b);
    }

    /** `user.save_to_redis()`: only the entry under the user's own key changes. */
    method SaveToRedis(u: User)
      requires Valid() && ValidUser(u)
      modifies this
      ensures Valid()
      ensures entries == Store(old(entries), u)
      ensures botUsers == old(botUsers)
    {
      entries := entries[Key(u.chatId) := DumpUser(u)];
    }

    /** `user.save_to_db()`: insert, or overwrite name, full_name and json_dump of the existing row. */
    method SaveToDb(u: User)
      requires ValidUser(u)
      modifies this
      ensures botUsers == old(botUsers)[u.chatId := BotUserRow(u.name, u.fullName, DumpUser(u))]
      ensures entries == old(entries)
    {
      botUsers := botUsers[u.chatId := BotUserRow(u.name, u.fullName, DumpUser(u))];
    }

    /** `User.set_state(chat_id, state)`: load (or create) the record, set only bot_state, save. */
    method SetState(chatId: int, state: string)
      requires Valid() && chatId > 0
      modifies this
      ensures Valid()
      ensures botUsers == old(botUsers)
      ensures entries == StateSet(old(entries), chatId, state)
    {
      var user := GetFromRedis(chatId);
      var u := if user.Some? then user.value else NewUser(chatId, None, None, None);
      u := u.(botState := Some(state));
      SaveToRedis(u);
      LookupAfterStore(old(entries), u);
    }
  }

  /** A stored session is a valid record of its own chat. */
  lemma LookupWellFormed(entries: map<string, string>, chatId: int)
    requires WellFormed(entries)
    ensures Lookup(entries, chatId).Some? <==> Key(chatId) in entries
    ensures Lookup(entries, chatId).Some? ==>
      ValidUser(Lookup(entries, chatId).value) && Lookup(entries, chatId).value.chatId == chatId
  {
    var k := Key(chatId);
    if k in entries {
      var stored :| ValidUser(stored) && k == Key(stored.chatId) && entries[k] == DumpUser(stored);
      SessionStore.KeysDiffer2(chatId, stored.chatId);
      LoadDumpUser(stored);
    }
  }

  /**
   * set_state changes only the chat's own session, keeps every field of an existing one except
   * bot_state, and starts a fresh record otherwise.
   */
  lemma SetStatePreserves(entries: map<string, string>, chatId: int, state: string, other: int)
    requires WellFormed(entries) && chatId > 0
    ensures var before := Lookup(entries, chatId);
            Lookup(StateSet(entries, chatId, state), chatId)
              == Some(if before.Some? then before.value.(botState := Some(state))
                      else User(chatId, None, None, Some(state), None, None, None))
    ensures other != chatId ==> Lookup(StateSet(entries, chatId, state), other) == Lookup(entries, other)
  {
    var before := Lookup(entries, chatId);
    LookupWellFormed(entries, chatId);
    var base := if before.Some? then before.value else NewUser(chatId, None, None, None);
    LookupAfterStore(entries, base.(botState := Some(state)));
    if other != chatId {
      LookupOtherAfterStore(entries, base.(botState := Some(state)), other);
    }
  }
}
