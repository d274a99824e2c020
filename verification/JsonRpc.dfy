/** JSON-RPC messages as the bridge and its clients classify them.

    A message is modelled by what the classification reads from it: its kind, its id, its method and an
    opaque body. `strict` abstracts the extra shape tests of the strict classification (version member,
    kinds of `params` and `error`, no mixed members); the test on the kind of the id is modelled here. */
module JsonRpc {
  import opened Wrappers
  import Decimal

  /** A non-null id. `Other` stands for every JSON value that is neither a string nor an integer. */
  datatype JsonId = Str(text: string) | Int(value: int) | Other(text: string)

  datatype Outcome = Result(body: string) | Error(code: int)

  datatype Payload =
    | Request(id: JsonId, verb: string, body: string, strict: bool)
    | Notification(verb: string, body: string, resolves: Option<JsonId>, strict: bool)
    | Response(id: JsonId, outcome: Outcome, strict: bool)
    | Invalid(ident: Option<JsonId>)

  datatype Kind = RequestKind | NotificationKind | ResponseKind | InvalidKind

  /** The id member, when it is present and not null. */
  function Ident(p: Payload): Option<JsonId> {
    match p
    case Request(id, _, _, _) => Some(id)
    case Notification(_, _, _, _) => None
    case Response(id, _, _) => Some(id)
    case Invalid(id) => id
  }

  function ClassifyStrict(p: Payload): Kind {
    match p
    case Request(id, _, _, strict) => if strict && !id.Other? then RequestKind else InvalidKind
    case Notification(_, _, _, strict) => if strict then NotificationKind else InvalidKind
    case Response(id, _, strict) => if strict && !id.Other? then ResponseKind else InvalidKind
    case Invalid(_) => InvalidKind
  }

  function ErrorResponse(id: JsonId, code: int): Payload {
    Response(id, Error(code), true)
  }

  // ----- serialization of ids ------------------------------------------------------------------

  function HexDigit(d: int): char
    requires 0 <= d < 16
  {
    if d < 10 then '0' + d as char else 'a' + (d - 10) as char
  }

  function EscapeChar(c: char): string {
    var n := c as int;
    if c == '\"' then "\\\""
    else if c == '\\' then "\\\\"
    else if n == 8 then "\\b"
    else if n == 9 then "\\t"
    else if n == 10 then "\\n"
    else if n == 12 then "\\f"
    else if n == 13 then "\\r"
    else if n < 32 then "\\u00" + [HexDigit(n / 16), HexDigit(n % 16)]
    else [c]
  }

  function Escape(s: string): string {
    if s == [] then [] else EscapeChar(s[0]) + Escape(s[1..])
  }

  function Numeral(n: int): string {
    if n < 0 then "-" + Decimal.ToString(-n) else Decimal.ToString(n)
  }

  /** The compact serialization of a string or integer id, used as the key of every table. */
  function IdKey(id: JsonId): Option<string> {
    match id
    case Str(s) => Some("\"" + Escape(s) + "\"")
    case Int(n) => Some(Numeral(n))
    case Other(_) => None
  }

  function Key(p: Payload): Option<string> {
    match Ident(p)
    case Some(id) => IdKey(id)
    case None => None
  }

  lemma EscapeCharPrefixFree(a: char, b: char, x: string, y: string)
    requires EscapeChar(a) + x == EscapeChar(b) + y
    ensures a == b && x == y
  {
    var u, v := EscapeChar(a) + x, EscapeChar(b) + y;
    assert u[0] == v[0] && u[0] == EscapeChar(a)[0] && v[0] == EscapeChar(b)[0];
    if |EscapeChar(a)| > 1 {
      assert u[1] == EscapeChar(a)[1] && v[1] == EscapeChar(b)[1];
      if |EscapeChar(a)| > 2 {
        assert u[4] == EscapeChar(a)[4] && v[4] == EscapeChar(b)[4];
        assert u[5] == EscapeChar(a)[5] && v[5] == EscapeChar(b)[5];
      }
    }
    assert a == b;
    assert x == u[|EscapeChar(a)|..] && y == v[|EscapeChar(b)|..];
  }

  lemma {:induction false} EscapeInjective(s: string, t: string)
    requires Escape(s) + "\"" == Escape(t) + "\""
    ensures s == t
  {
    assert (Escape(s) + "\"")[0] == (Escape(t) + "\"")[0];
    if s == [] || t == [] {  // an escaped character never starts with a quote
      assert s == t;
    } else {
      assert Escape(s) + "\"" == EscapeChar(s[0]) + (Escape(s[1..]) + "\"");
      assert Escape(t) + "\"" == EscapeChar(t[0]) + (Escape(t[1..]) + "\"");
      EscapeCharPrefixFree(s[0], t[0], Escape(s[1..]) + "\"", Escape(t[1..]) + "\"");
      EscapeInjective(s[1..], t[1..]);
    }
  }

  lemma NumeralInjective(m: int, n: int)
    requires Numeral(m) == Numeral(n)
    ensures m == n
  {
    hide Decimal.ToString;
    assert Numeral(m)[0] == Numeral(n)[0];
    if m < 0 {
      assert n < 0;
      assert Decimal.ToString(-m) == Numeral(m)[1..] == Numeral(n)[1..] == Decimal.ToString(-n);
      Decimal.Injective(-m, -n);
    } else {
      assert n >= 0;
      Decimal.Injective(m, n);
    }
  }

  /** Two ids share a key only when they are the same id: a table indexed by keys never confuses requests. */
  lemma IdKeyInjective(a: JsonId, b: JsonId)
    requires IdKey(a).Some? && IdKey(a) == IdKey(b)
    ensures a == b
  {
    hide Escape, Decimal.ToString;
    var x, y := IdKey(a).value, IdKey(b).value;
    assert x[0] == y[0];
    match (a, b) {
      case (Str(s), Str(t)) =>
        assert Escape(s) + "\"" == x[1..] && Escape(t) + "\"" == y[1..];
        EscapeInjective(s, t);
      case (Int(m), Int(n)) => NumeralInjective(m, n);
      case _ =>
    }
  }
}
