/**
 * Payloads that test steps attach to a test item, and their normalisation into the
 * text a result record keeps (the payload handling of `append_result` in utils/utils.py).
 */
module Payload {
  import opened Strings
  import opened Wrappers

  /** A Python value attached as a payload: `None`, a scalar, a list or a dict with string keys. */
  datatype Value =
    | Null
    | Bool(b: bool)
    | Int(i: int)
    | Str(s: string)
    | List(items: seq<Value>)
    | Dict(entries: seq<Entry>)

  /** One key/value pair of a dict, in the dict's insertion order. */
  datatype Entry = Entry(key: string, value: Value)

  /** What a stored record's payload can be: text, or a scalar that was passed through. */
  datatype Stored = Textual(text: string) | Integer(i: int) | Boolean(b: bool)

  /** The sentinel stored for a `None` payload. */
  const NoData := "No Data"

  /** The stored payload seen again as a Python value. */
  function Lift(s: Stored): Value {
    match s
    case Textual(t) => Str(t)
    case Integer(i) => Int(i)
    case Boolean(b) => Bool(b)
  }

  /** Python's `str(...)` of a stored payload, as the report shows it. */
  function StoredText(s: Stored): string {
    match s
    case Textual(t) => t
    case Integer(i) => IntToText(i)
    case Boolean(b) => if b then "True" else "False"
  }

  // ---- JSON text, as json.dumps(value, indent=2) lays it out ----

  /** The escape sequence for one character inside a JSON string literal. */
  function EscapeChar(c: char): (r: string)
    ensures |r| >= 1 && (r[0] == '\\' <==> |r| == 2)
    ensures |r| == 1 ==> r == [c]
  {
    match c
    case '"' => "\\\""
    case '\\' => "\\\\"
    case '\n' => "\\n"
    case '\r' => "\\r"
    case '\t' => "\\t"
    case '\U{8}' => "\\b"
    case '\U{C}' => "\\f"
    case _ => [c]
  }

  /** The body of a JSON string literal for `s`. */
  function Escape(s: string): string {
    if s == [] then "" else EscapeChar(s[0]) + Escape(s[1..])
  }

  /** The character a two-character escape sequence `\e` stands for. */
  function Unescaped(e: char): Option<char> {
    match e
    case '"' => Some('"')
    case '\\' => Some('\\')
    case 'n' => Some('\n')
    case 'r' => Some('\r')
    case 't' => Some('\t')
    case 'b' => Some('\U{8}')
    case 'f' => Some('\U{C}')
    case _ => None
  }

  /** Reads the body of a JSON string literal back into the string it denotes; None when malformed. */
  function Unescape(t: string): Option<string>
    decreases |t|
  {
    if t == [] then Some([])
    else if t[0] == '"' then None
    else if t[0] == '\\' then
      if |t| < 2 then None
      else match (Unescaped(t[1]), Unescape(t[2..]))
        case (Some(c), Some(rest)) => Some([c] + rest)
        case _ => None
    else match Unescape(t[1..])
      case Some(rest) => Some([t[0]] + rest)
      case None => None
  }

  lemma {:induction false} UnescapeEscapeChar(c: char, rest: string)
    ensures Unescape(EscapeChar(c) + rest) ==
      match Unescape(rest) case Some(r) => Some([c] + r) case None => None
  {
    var e := EscapeChar(c);
    if |e| == 2 {
      assert (e + rest)[2..] == rest;
    } else {
      assert (e + rest)[1..] == rest;
    }
  }

  /** Escaping loses nothing: the escaped text reads back as the original string. */
  lemma {:induction false} EscapeRoundTrip(s: string)
    ensures Unescape(Escape(s)) == Some(s)
    decreases |s|
  {
    if s != [] {
      EscapeRoundTrip(s[1..]);
      UnescapeEscapeChar(s[0], Escape(s[1..]));
      assert [s[0]] + s[1..] == s;
    }
  }

  /** Each character escapes to one or two characters. */
  lemma {:induction false} EscapeLength(s: string)
    ensures |s| <= |Escape(s)| <= 2 * |s|
    decreases |s|
  {
    if s != [] {
      EscapeLength(s[1..]);
    }
  }

  /** Text without quotes, backslashes or control characters is its own escaped form. */
  lemma {:induction false} EscapePlain(s: string)
    requires forall i :: 0 <= i < |s| ==> |EscapeChar(s[i])| == 1
    ensures Escape(s) == s
    decreases |s|
  {
    if s != [] {
      assert |EscapeChar(s[0])| == 1;
      EscapePlain(s[1..]);
      assert [s[0]] + s[1..] == s;
    }
  }

  /** A JSON string literal. */
  function Quote(s: string): string {
    "\"" + Escape(s) + "\""
  }

  function Indent(level: nat): (r: string)
    ensures |r| == 2 * level
  {
    if level == 0 then "" else "  " + Indent(level - 1)
  }

  /** json.dumps(v, indent=2) for a value nested `level` deep. */
  function ToJson(v: Value, level: nat): string
    decreases v, 1
  {
    match v
    case Null => "null"
    case Bool(b) => if b then "true" else "false"
    case Int(i) => IntToText(i)
    case Str(s) => Quote(s)
    case List(items) =>
      if items == [] then "[]"
      else "[" + JsonItems(items, level + 1) + "\n" + Indent(level) + "]"
    case Dict(entries) =>
      if entries == [] then "{}"
      else "{" + JsonEntries(entries, level + 1) + "\n" + Indent(level) + "}"
  }

  /** The lines of a non-empty JSON array, each on its own indented line, separated by commas. */
  function JsonItems(items: seq<Value>, level: nat): (r: string)
    requires items != []
    ensures |r| > 1 + 2 * level && r[..1 + 2 * level] == "\n" + Indent(level)
    decreases items, 0
  {
    var line := "\n" + Indent(level) + ToJson(items[0], level);
    if |items| == 1 then line else line + "," + JsonItems(items[1..], level)
  }

  /** The lines of a non-empty JSON object, `"key": value` each, separated by commas. */
  function JsonEntries(entries: seq<Entry>, level: nat): (r: string)
    requires entries != []
    ensures |r| > 1 + 2 * level && r[..1 + 2 * level] == "\n" + Indent(level)
    decreases entries, 0
  {
    var line := "\n" + Indent(level) + Quote(entries[0].key) + ": " + ToJson(entries[0].value, level);
    if |entries| == 1 then line else line + "," + JsonEntries(entries[1..], level)
  }

  /** The first character of the rendered text tells which kind of value it is. */
  lemma JsonKind(v: Value, level: nat)
    ensures var t := ToJson(v, level);
      |t| >= 1 &&
      (t[0] == '[' <==> v.List?) && (t[0] == '{' <==> v.Dict?) && (t[0] == '"' <==> v.Str?)
  {
  }

  /** A serialised list or dict is bracketed, so its kind is visible in the text. */
  lemma JsonBrackets(v: Value, level: nat)
    ensures var t := ToJson(v, level);
      (v.List? || v.Dict?) ==>
        (|t| >= 2 &&
         (v.List? ==> t[0] == '[' && t[|t| - 1] == ']') &&
         (v.Dict? ==> t[0] == '{' && t[|t| - 1] == '}'))
  {
  }

  /**
   * The payload normalisation of `append_result`: None becomes the "No Data" sentinel,
   * a dict or list becomes its indented JSON text, anything else is kept as it is.
   */
  function Normalise(p: Value): (r: Stored)
    ensures p.Null? ==> r == Textual(NoData)
    ensures (p.Str? || p.Int? || p.Bool?) ==> Lift(r) == p
    ensures (p.List? || p.Dict?) ==> r == Textual(ToJson(p, 0))
  {
    match p
    case Null => Textual(NoData)
    case Bool(b) => Boolean(b)
    case Int(i) => Integer(i)
    case Str(s) => Textual(s)
    case List(_) => Textual(ToJson(p, 0))
    case Dict(_) => Textual(ToJson(p, 0))
  }

  /** Normalising an already-normalised payload changes nothing. */
  lemma NormaliseIdempotent(s: Stored)
    ensures Normalise(Lift(s)) == s
  {
  }

  /** A stored payload is never a dict, a list or None. */
  lemma NormalisedIsScalar(p: Value)
    ensures var v := Lift(Normalise(p)); v.Str? || v.Int? || v.Bool?
  {
  }
}
