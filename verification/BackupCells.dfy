/** One cell of a logical backup: its text in the archive (`normalizeCell`) and the value
    that text restores to (`restoreCell`). */
module BackupCells {
  import opened Wrappers
  import opened Text
  import opened TimeText
  import opened TimeParse

  // ----- standard base64 with padding (RFC 4648, section 4)

  type Byte = b: int | 0 <= b < 256

  function Letter(n: nat): (c: char)
    requires n < 64
    ensures LetterValue(c) == Some(n) && c != '=' && !IsNewline(c)
  {
    if n < 26 then 'A' + n as char
    else if n < 52 then 'a' + (n - 26) as char
    else if n < 62 then '0' + (n - 52) as char
    else if n == 62 then '+' else '/'
  }

  function LetterValue(c: char): (v: Option<nat>)
    ensures v.Some? ==> v.value < 64
  {
    if 'A' <= c <= 'Z' then Some((c - 'A') as nat)
    else if 'a' <= c <= 'z' then Some((c - 'a') as nat + 26)
    else if '0' <= c <= '9' then Some((c - '0') as nat + 52)
    else if c == '+' then Some(62)
    else if c == '/' then Some(63)
    else None
  }

  /** The four numbers of six bits that make up three bytes. */
  function First6(a: Byte): (n: nat)
    ensures n < 64
  {
    a / 4
  }

  function Second6(a: Byte, b: Byte): (n: nat)
    ensures n < 64
  {
    a % 4 * 16 + b / 16
  }

  function Third6(b: Byte, c: Byte): (n: nat)
    ensures n < 64
  {
    b % 16 * 4 + c / 64
  }

  function Fourth6(c: Byte): (n: nat)
    ensures n < 64
  {
    c % 64
  }

  function Quad(a: Byte, b: Byte, c: Byte): (s: string)
    ensures |s| == 4
  {
    [Letter(First6(a)), Letter(Second6(a, b)), Letter(Third6(b, c)), Letter(Fourth6(c))]
  }

  function Encode(bytes: seq<Byte>): string {
    if bytes == [] then ""
    else if |bytes| == 1 then Quad(bytes[0], 0, 0)[..2] + "=="
    else if |bytes| == 2 then Quad(bytes[0], bytes[1], 0)[..3] + "="
    else Quad(bytes[0], bytes[1], bytes[2]) + Encode(bytes[3..])
  }

  predicate IsNewline(c: char) {
    c == '\n' || c == '\r'
  }

  /** The decoder skips line ends wherever they stand. */
  function WithoutNewlines(s: string): string {
    if s == "" then "" else (if IsNewline(s[0]) then "" else [s[0]]) + WithoutNewlines(s[1..])
  }

  function FirstByte(p: nat, q: nat): Byte
    requires p < 64 && q < 64
  {
    p * 4 + q / 16
  }

  function SecondByte(q: nat, r: nat): Byte
    requires q < 64 && r < 64
  {
    q % 16 * 16 + r / 4
  }

  function ThirdByte(r: nat, t: nat): Byte
    requires r < 64 && t < 64
  {
    r % 4 * 64 + t
  }

  function DecodeQuads(s: string): Option<seq<Byte>> {
    if s == "" then Some([])
    else if |s| < 4 then None
    else
      var p, q, r, t := LetterValue(s[0]), LetterValue(s[1]), LetterValue(s[2]), LetterValue(s[3]);
      if p.None? || q.None? then None
      else if s[2] == '=' then
        if s[3] == '=' && |s| == 4 then Some([FirstByte(p.value, q.value)]) else None
      else if r.None? then None
      else if s[3] == '=' then
        if |s| == 4 then Some([FirstByte(p.value, q.value), SecondByte(q.value, r.value)]) else None
      else if t.None? then None
      else
        var rest := DecodeQuads(s[4..]);
        if rest.None? then None
        else Some([FirstByte(p.value, q.value), SecondByte(q.value, r.value), ThirdByte(r.value, t.value)] + rest.value)
  }

  function Decode(s: string): Option<seq<Byte>> {
    DecodeQuads(WithoutNewlines(s))
  }

  lemma BytesOfQuad(a: Byte, b: Byte, c: Byte)
    ensures FirstByte(First6(a), Second6(a, b)) == a
    ensures SecondByte(Second6(a, b), Third6(b, c)) == b
    ensures ThirdByte(Third6(b, c), Fourth6(c)) == c
  {
  }

  predicate OneLine(s: string) {
    forall i :: 0 <= i < |s| ==> !IsNewline(s[i])
  }

  lemma {:induction false} EncodedIsOneLine(bytes: seq<Byte>)
    ensures OneLine(Encode(bytes))
  {
    if |bytes| > 2 {
      EncodedIsOneLine(bytes[3..]);
    }
    hide LetterValue, Letter;
  }

  lemma {:induction false} NothingToSkip(s: string)
    requires OneLine(s)
    ensures WithoutNewlines(s) == s
  {
    if s != "" {
      NothingToSkip(s[1..]);
      assert s == [s[0]] + s[1..];
    }
  }

  lemma DecodeThree(p: nat, q: nat, r: nat, t: nat, rest: string)
    requires p < 64 && q < 64 && r < 64 && t < 64
    ensures DecodeQuads([Letter(p), Letter(q), Letter(r), Letter(t)] + rest)
            == (if DecodeQuads(rest).Some?
                then Some([FirstByte(p, q), SecondByte(q, r), ThirdByte(r, t)] + DecodeQuads(rest).value) else None)
  {
    hide FirstByte, SecondByte, ThirdByte, LetterValue, Letter;
    var s := [Letter(p), Letter(q), Letter(r), Letter(t)] + rest;
    assert s[4..] == rest;
  }

  lemma DecodeLast(p: nat, q: nat, r: nat)
    requires p < 64 && q < 64 && r < 64
    ensures DecodeQuads([Letter(p), Letter(q), '=', '=']) == Some([FirstByte(p, q)])
    ensures DecodeQuads([Letter(p), Letter(q), Letter(r), '=']) == Some([FirstByte(p, q), SecondByte(q, r)])
  {
    assert LetterValue('=') == None;
    hide FirstByte, SecondByte, LetterValue, Letter;
  }

  lemma {:induction false} DecodeQuadsUndoesEncode(bytes: seq<Byte>)
    ensures DecodeQuads(Encode(bytes)) == Some(bytes)
  {
    if |bytes| == 0 {
      NothingDecodes();
    } else if |bytes| == 1 {
      OneByteDecodes(bytes);
    } else if |bytes| == 2 {
      TwoBytesDecode(bytes);
    } else {
      DecodeQuadsUndoesEncode(bytes[3..]);
      MoreBytesDecode(bytes);
    }
    hide DecodeQuads, Encode;
  }

  lemma OneByteDecodes(bytes: seq<Byte>)
    requires |bytes| == 1
    ensures DecodeQuads(Encode(bytes)) == Some(bytes)
  {
    hide DecodeQuads, Letter, FirstByte, SecondByte, ThirdByte, First6, Second6, Third6, Fourth6;
    BytesOfQuad(bytes[0], 0, 0);
    DecodeLast(First6(bytes[0]), Second6(bytes[0], 0), 0);
    assert Encode(bytes) == [Letter(First6(bytes[0])), Letter(Second6(bytes[0], 0)), '=', '='] && bytes == [bytes[0]];
  }

  lemma TwoBytesDecode(bytes: seq<Byte>)
    requires |bytes| == 2
    ensures DecodeQuads(Encode(bytes)) == Some(bytes)
  {
    hide DecodeQuads, Letter, FirstByte, SecondByte, ThirdByte, First6, Second6, Third6, Fourth6;
    BytesOfQuad(bytes[0], bytes[1], 0);
    DecodeLast(First6(bytes[0]), Second6(bytes[0], bytes[1]), Third6(bytes[1], 0));
    assert Encode(bytes)
        == [Letter(First6(bytes[0])), Letter(Second6(bytes[0], bytes[1])), Letter(Third6(bytes[1], 0)), '='];
    assert bytes == [bytes[0], bytes[1]];
  }

  lemma MoreBytesDecode(bytes: seq<Byte>)
    requires |bytes| > 2 && DecodeQuads(Encode(bytes[3..])) == Some(bytes[3..])
    ensures DecodeQuads(Encode(bytes)) == Some(bytes)
  {
    hide DecodeQuads, Letter, FirstByte, SecondByte, ThirdByte, First6, Second6, Third6, Fourth6;
    BytesOfQuad(bytes[0], bytes[1], bytes[2]);
    DecodeThree(First6(bytes[0]), Second6(bytes[0], bytes[1]), Third6(bytes[1], bytes[2]), Fourth6(bytes[2]), Encode(bytes[3..]));
    assert bytes == [bytes[0], bytes[1], bytes[2]] + bytes[3..];
  }

  lemma NothingDecodes()
    ensures DecodeQuads("") == Some([])
  {
  }

  lemma DecodeUndoesEncode(bytes: seq<Byte>)
    ensures Decode(Encode(bytes)) == Some(bytes)
  {
    EncodedIsOneLine(bytes);
    NothingToSkip(Encode(bytes));
    DecodeQuadsUndoesEncode(bytes);
  }

  /** Letters, and at most two padding signs after them. */
  ghost predicate Padded(s: string, pad: nat) {
    && pad <= 2 && pad <= |s|
    && (forall i :: 0 <= i < |s| - pad ==> LetterValue(s[i]).Some?)
    && (forall i :: |s| - pad <= i < |s| ==> s[i] == '=')
  }

  lemma PaddedTail(s: string, pad: nat)
    requires |s| >= 8 && |s| % 4 == 0
    ensures Padded(s, pad) <==>
      && LetterValue(s[0]).Some? && LetterValue(s[1]).Some? && LetterValue(s[2]).Some? && LetterValue(s[3]).Some?
      && Padded(s[4..], pad)
  {
    hide LetterValue;
    var tail := s[4..];
    assert forall i :: 0 <= i < |tail| ==> tail[i] == s[i + 4];
    if Padded(s, pad) {
      assert forall j :: 4 <= j < |s| - pad ==> LetterValue(s[j]).Some?;
    }
    if LetterValue(s[0]).Some? && LetterValue(s[1]).Some? && LetterValue(s[2]).Some? && LetterValue(s[3]).Some? && Padded(tail, pad) {
      forall i | 0 <= i < |s|
        ensures i < |s| - pad ==> LetterValue(s[i]).Some?
        ensures i >= |s| - pad ==> s[i] == '='
      {
        if i >= 4 {
          assert tail[i - 4] == s[i];
        }
      }
    }
  }

  /** The decoder reads exactly the texts that, line ends aside, are whole quads of letters of
      which the last may end in one or two padding signs; three bytes for each quad, less the
      padding. */
  lemma {:induction false} DecodesExactly(s: string)
    ensures DecodeQuads(s).Some? <==> |s| % 4 == 0 && exists pad: nat :: Padded(s, pad)
    ensures forall pad: nat :: DecodeQuads(s).Some? && Padded(s, pad) ==> |DecodeQuads(s).value| == |s| / 4 * 3 - pad
  {
    assert LetterValue('=') == None;
    hide LetterValue, FirstByte, SecondByte, ThirdByte, Padded;
    if s == "" {
      NoPadding();
    } else if |s| == 4 {
      OneQuad(s);
    } else if |s| > 4 {
      DecodesExactly(s[4..]);
      LongerQuads(s);
    } else {
      assert |s| % 4 != 0;
    }
  }

  lemma NoPadding()
    ensures Padded("", 0) && forall pad: nat :: Padded("", pad) ==> pad == 0
  {
  }

  lemma OneQuad(s: string)
    requires |s| == 4
    ensures DecodeQuads(s).Some? <==> exists pad: nat :: Padded(s, pad)
    ensures forall pad: nat :: DecodeQuads(s).Some? && Padded(s, pad) ==> |DecodeQuads(s).value| == 3 - pad
  {
    assert LetterValue('=') == None;
    assert DecodeQuads(s[4..]) == Some([]);
    hide LetterValue, FirstByte, SecondByte, ThirdByte;
    if DecodeQuads(s).Some? {
      assert Padded(s, if s[2] == '=' then 2 else if s[3] == '=' then 1 else 0);
    }
    forall pad: nat | Padded(s, pad)
      ensures DecodeQuads(s).Some? && |DecodeQuads(s).value| == 3 - pad
    {
      assert LetterValue(s[0]).Some? && LetterValue(s[1]).Some?;
      assert pad == 2 ==> s[2] == '=' && s[3] == '=';
      assert pad == 1 ==> LetterValue(s[2]).Some? && s[3] == '=';
      assert pad == 0 ==> LetterValue(s[2]).Some? && LetterValue(s[3]).Some?;
    }
  }

  lemma LongerQuads(s: string)
    requires |s| > 4
    requires DecodeQuads(s[4..]).Some? <==> |s[4..]| % 4 == 0 && exists pad: nat :: Padded(s[4..], pad)
    requires forall pad: nat ::
      DecodeQuads(s[4..]).Some? && Padded(s[4..], pad) ==> |DecodeQuads(s[4..]).value| == |s[4..]| / 4 * 3 - pad
    ensures DecodeQuads(s).Some? <==> |s| % 4 == 0 && exists pad: nat :: Padded(s, pad)
    ensures forall pad: nat :: DecodeQuads(s).Some? && Padded(s, pad) ==> |DecodeQuads(s).value| == |s| / 4 * 3 - pad
  {
    hide LetterValue, DecodeQuads, Padded;
    FirstQuad(s);
    if |s| % 4 == 0 {
      forall pad: nat
        ensures Padded(s, pad) <==> FourLetters(s) && Padded(s[4..], pad)
      {
        PaddedTail(s, pad);
      }
    }
    hide FourLetters;
  }

  predicate FourLetters(s: string)
    requires |s| >= 4
  {
    LetterValue(s[0]).Some? && LetterValue(s[1]).Some? && LetterValue(s[2]).Some? && LetterValue(s[3]).Some?
  }

  lemma FirstQuad(s: string)
    requires |s| > 4
    ensures DecodeQuads(s).Some? <==> FourLetters(s) && DecodeQuads(s[4..]).Some?
    ensures DecodeQuads(s).Some? ==> |DecodeQuads(s).value| == 3 + |DecodeQuads(s[4..]).value|
  {
    assert LetterValue('=') == None;
    hide LetterValue, FirstByte, SecondByte, ThirdByte;
  }

  // ----- integers and booleans

  predicate Int64(n: int) {
    -9223372036854775808 <= n <= 9223372036854775807
  }

  /** strconv.ParseInt(s, 10, 64). */
  function ParseInt(s: string): (n: Option<int>)
    ensures n.Some? ==> Int64(n.value)
  {
    var digits := if s != "" && (s[0] == '-' || s[0] == '+') then s[1..] else s;
    if digits == "" || !AllDigits(digits) then None
    else
      var size := Number(digits);
      var n: int := if s[0] == '-' then 0 - size else size;
      if Int64(n) then Some(n) else None
  }

  function FormatInt(n: int): string {
    if n < 0 then "-" + DecimalText(-n) else DecimalText(n)
  }

  lemma ParseUndoesFormat(n: int)
    ensures ParseInt(FormatInt(n)) == if Int64(n) then Some(n) else None
  {
    NumberOfDecimalText(if n < 0 then -n else n);
    var text := DecimalText(if n < 0 then -n else n);
    assert IsDigit(text[0]);
    assert n < 0 ==> FormatInt(n)[1..] == text;
  }

  /** An integer is read from digits behind an optional sign, if 64 bits hold it. */
  lemma ParseIntExactly(s: string, n: int)
    ensures ParseInt(s) == Some(n) <==>
      && -0x8000_0000_0000_0000 <= n < 0x8000_0000_0000_0000
      && exists digits: string ::
           && digits != "" && AllDigits(digits)
           && (((s == digits || s == "+" + digits) && n == Number(digits)) || (s == "-" + digits && n == 0 - Number(digits)))
  {
    hide Number;
    var digits := if s != "" && (s[0] == '-' || s[0] == '+') then s[1..] else s;
    assert s == digits || s == "+" + digits || s == "-" + digits;
    forall other: string | other != "" && AllDigits(other) && (s == other || s == "+" + other || s == "-" + other)
      ensures other == digits
    {
      assert IsDigit(other[0]);
    }
  }

  /** strconv.ParseBool. */
  function ParseBool(s: string): Option<bool> {
    if s in ["1", "t", "T", "TRUE", "true", "True"] then Some(true)
    else if s in ["0", "f", "F", "FALSE", "false", "False"] then Some(false)
    else None
  }

  // ----- cells

  datatype Kind = KText | KJSON | KBinary | KInteger | KBoolean | KTime

  datatype Dialect = SQLite | MySQL

  /** What the driver reads from a column or writes to it. */
  datatype Value =
    | Null
    | Text(text: string)
    | Int(number: int)
    | Bool(truth: bool)
    | Blob(bytes: seq<Byte>)
    | Time(instant: Instant)

  type Cell = Option<string>

  /** json.Valid is not decided here. */
  type Json = string -> bool

  datatype Error = NotBinary | BadInteger | BadBoolean | BadTime | BadJSON | BadBase64

  /** Bytes read as text, one character for each byte. */
  function BytesText(bytes: seq<Byte>): string {
    seq(|bytes|, i requires 0 <= i < |bytes| => bytes[i] as char)
  }

  function ScalarString(value: Value): string {
    match value
    case Blob(bytes) => BytesText(bytes)
    case Text(text) => text
    case Int(number) => FormatInt(number)
    case Bool(truth) => if truth then "true" else "false"
    case Time(instant) => TimeValue(instant)
    case Null => ""
  }

  function ValueTime(value: Value): Option<Instant> {
    if value.Time? then Some(value.instant) else ParseTime(ScalarString(value))
  }

  function NormalizeCell(json: Json, kind: Kind, value: Value): Result<Cell, Error> {
    if value.Null? then Ok(None)
    else match kind
      case KBinary => if value.Blob? then Ok(Some(Encode(value.bytes))) else Err(NotBinary)
      case KInteger =>
        if ParseInt(ScalarString(value)).Some? then Ok(Some(ScalarString(value))) else Err(BadInteger)
      case KBoolean =>
        if ScalarString(value) in ["0", "1", "true", "false"] then Ok(Some(ScalarString(value))) else Err(BadBoolean)
      case KTime =>
        var t := ValueTime(value);
        if t.Some? then Ok(Some(TimeValue(t.value))) else Err(BadTime)
      case KJSON => if json(ScalarString(value)) then Ok(Some(ScalarString(value))) else Err(BadJSON)
      case KText => Ok(Some(ScalarString(value)))
  }

  function RestoreBoolean(text: string): Result<Value, Error> {
    var parsed := ParseBool(text);
    if parsed.Some? then Ok(Bool(parsed.value))
    else
      var n := ParseInt(text);
      if n == Some(0) || n == Some(1) then Ok(Bool(n.value == 1)) else Err(BadBoolean)
  }

  /** The texts a boolean is restored from. */
  lemma BooleansAreRead(text: string)
    ensures RestoreBoolean(text) == Ok(Bool(true)) <==>
      || text == "1" || text == "t" || text == "T" || text == "true" || text == "True" || text == "TRUE"
      || ParseInt(text) == Some(1)
    ensures RestoreBoolean(text) == Ok(Bool(false)) <==>
      || text == "0" || text == "f" || text == "F" || text == "false" || text == "False" || text == "FALSE"
      || ParseInt(text) == Some(0)
    ensures RestoreBoolean(text) == Ok(Bool(true)) || RestoreBoolean(text) == Ok(Bool(false)) || RestoreBoolean(text) == Err(BadBoolean)
  {
    WordsAreNotNumbers(text);
    hide ParseInt;
  }

  lemma WordsAreNotNumbers(text: string)
    ensures text in ["t", "T", "TRUE", "true", "True", "f", "F", "FALSE", "false", "False"] ==> ParseInt(text) == None
    ensures text == "1" ==> ParseInt(text) == Some(1)
    ensures text == "0" ==> ParseInt(text) == Some(0)
  {
    if text in ["t", "T", "TRUE", "true", "True", "f", "F", "FALSE", "false", "False"] {
      assert !IsDigit(text[0]);
    }
    ParseUndoesFormat(1);
    ParseUndoesFormat(0);
    OneDigit();
  }

  function RestoreCell(json: Json, kind: Kind, cell: Cell, dialect: Dialect): Result<Value, Error> {
    if cell.None? then Ok(Null)
    else match kind
      case KBinary =>
        var bytes := Decode(cell.value);
        if bytes.Some? then Ok(Blob(bytes.value)) else Err(BadBase64)
      case KInteger =>
        var n := ParseInt(cell.value);
        if n.Some? then Ok(Int(n.value)) else Err(BadInteger)
      case KBoolean => RestoreBoolean(cell.value)
      case KTime =>
        var t := ParseRFC3339(cell.value);
        if t.None? then Err(BadTime)
        else Ok(if dialect.MySQL? then Time(t.value) else Text(TimeValue(t.value)))
      case KJSON => if json(cell.value) then Ok(Text(cell.value)) else Err(BadJSON)
      case KText => Ok(Text(cell.value))
  }

  /** What SQLite gives back for a value written to it: booleans are stored as integers. */
  function Stored(value: Value): Value {
    if value.Bool? then Int(if value.truth then 1 else 0) else value
  }

  /** A value in the spelling the program itself stores. */
  ghost predicate Canonical(json: Json, kind: Kind, value: Value) {
    value.Null? ||
    match kind
    case KBinary => value.Blob?
    case KInteger => value.Int? && Int64(value.number)
    case KBoolean => value == Int(0) || value == Int(1)
    case KTime => exists t: Instant :: FourDigitYear(t) && value == Text(TimeValue(t))
    case KJSON => value.Text? && json(value.text)
    case KText => value.Text?
  }

  /** The canonical spelling of an exported value. */
  function Canon(json: Json, kind: Kind, value: Value): Value {
    if value.Null? then Null
    else match kind
      case KBinary => value
      case KInteger => if ParseInt(ScalarString(value)).Some? then Int(ParseInt(ScalarString(value)).value) else value
      case KBoolean => if ScalarString(value) in ["1", "true"] then Int(1) else Int(0)
      case KTime => if ValueTime(value).Some? then Text(TimeValue(ValueTime(value).value)) else value
      case KJSON => Text(ScalarString(value))
      case KText => Text(ScalarString(value))
  }

  /** Validation checks one dialect, which decides for both; the values are the same, a time
      being the instant itself for MySQL and its text for SQLite. */
  lemma DialectsAgree(json: Json, kind: Kind, cell: Cell)
    ensures RestoreCell(json, kind, cell, SQLite).Ok? <==> RestoreCell(json, kind, cell, MySQL).Ok?
    ensures RestoreCell(json, kind, cell, MySQL).Ok? ==>
      var forMySQL, forSQLite := RestoreCell(json, kind, cell, MySQL).value, RestoreCell(json, kind, cell, SQLite).value;
      if kind.KTime? && cell.Some? then forMySQL.Time? && forSQLite == Text(TimeValue(forMySQL.instant))
      else forMySQL == forSQLite
  {
    hide ParseRFC3339, TimeValue, ParseInt, Decode, RestoreBoolean;
  }

  /** The export does not depend on how the driver hands a value over: as bytes or text, as a
      time or its text, as a number or its digits. */
  lemma SpellingsAgree(json: Json, kind: Kind, bytes: seq<Byte>, text: string, t: Instant, n: int)
    requires |text| == |bytes| && forall i :: 0 <= i < |bytes| ==> text[i] as int == bytes[i]
    ensures !kind.KBinary? ==> NormalizeCell(json, kind, Blob(bytes)) == NormalizeCell(json, kind, Text(text))
    ensures FourDigitYear(t) ==> NormalizeCell(json, KTime, Time(t)) == NormalizeCell(json, KTime, Text(TimeValue(t)))
    ensures NormalizeCell(json, KInteger, Int(n)) == NormalizeCell(json, KInteger, Text(FormatInt(n)))
  {
    hide ParseTime, TimeValue, FormatInt, BytesText, FourDigitYear, ParseInt;
    BytesAreText(bytes, text);
    ParseUndoesTimeValue(t);
  }

  lemma BytesAreText(bytes: seq<Byte>, text: string)
    requires |text| == |bytes| && forall i :: 0 <= i < |bytes| ==> text[i] as int == bytes[i]
    ensures BytesText(bytes) == text
  {
  }

  /** How a truth value may stand in a boolean column. */
  predicate Spells(value: Value, truth: bool) {
    || value == Bool(truth)
    || value == Int(if truth then 1 else 0)
    || value == Text(if truth then "1" else "0")
    || value == Text(if truth then "true" else "false")
  }

  /** Every such spelling is exported and restored to that truth, and no other text or flag is. */
  lemma TruthSurvives(json: Json, value: Value, truth: bool)
    requires value.Bool? || value.Text?
    ensures NormalizeCell(json, KBoolean, value).Ok? <==> Spells(value, true) || Spells(value, false)
    ensures Spells(value, truth) ==>
      RestoreCell(json, KBoolean, NormalizeCell(json, KBoolean, value).value, SQLite) == Ok(Bool(truth))
  {
    hide ParseBool, ParseInt;
    if NormalizeCell(json, KBoolean, value).Ok? {
      OneOrZero(ScalarString(value));
    }
  }

  /** The cells whose exported text cannot be restored: times whose zone offset carries
      them out of the years 0000-9999. */
  ghost predicate OutOfYears(kind: Kind, value: Value) {
    kind.KTime? && !value.Null? && ValueTime(value).Some? && !FourDigitYear(ValueTime(value).value)
  }

  /** Restoring an exported cell gives its canonical spelling, and fails exactly for the
      times that leave the four-digit years. */
  lemma RestoreUndoesNormalize(json: Json, kind: Kind, value: Value)
    requires NormalizeCell(json, kind, value).Ok?
    ensures
      var restored := RestoreCell(json, kind, NormalizeCell(json, kind, value).value, SQLite);
      && (restored.Ok? <==> !OutOfYears(kind, value))
      && (restored.Ok? ==> Stored(restored.value) == Canon(json, kind, value))
  {
    hide Decode, ParseInt, ParseTime, ParseRFC3339, TimeValue, FourDigitYear, FormatInt, Encode, BytesText;
    match kind
    case KBinary => if value.Blob? { DecodeUndoesEncode(value.bytes); }
    case KTime => if !value.Null? { ParseUndoesTimeValue(ValueTime(value).value); }
    case KBoolean => hide ScalarString, ParseBool; if !value.Null? { OneOrZero(ScalarString(value)); }
    case _ =>
  }

  lemma OneOrZero(text: string)
    requires text in ["0", "1", "true", "false"]
    ensures RestoreBoolean(text) == Ok(Bool(text in ["1", "true"]))
  {
  }

  /** What a restore stores is canonical. */
  lemma RestoredIsCanonical(json: Json, kind: Kind, cell: Cell)
    requires RestoreCell(json, kind, cell, SQLite).Ok?
    requires kind.KTime? && cell.Some? ==> FourDigitYear(ParseRFC3339(cell.value).value)
    ensures Canonical(json, kind, Stored(RestoreCell(json, kind, cell, SQLite).value))
  {
    hide Decode, ParseRFC3339, TimeValue, FourDigitYear;
  }

  /** A canonical value is exported, and is its own canonical spelling. */
  lemma CanonicalIsFixed(json: Json, kind: Kind, value: Value)
    requires Canonical(json, kind, value)
    ensures NormalizeCell(json, kind, value).Ok?
    ensures Canon(json, kind, value) == value && !OutOfYears(kind, value)
  {
    hide Decode, ParseInt, ParseTime, ParseRFC3339, TimeValue, FourDigitYear, FormatInt, Encode, BytesText;
    match kind
    case KInteger => if value.Int? { ParseUndoesFormat(value.number); }
    case KBoolean => OneDigit();
    case KTime =>
      if !value.Null? {
        var t: Instant :| FourDigitYear(t) && value == Text(TimeValue(t));
        ParseUndoesTimeValue(t);
      }
    case _ =>
  }

  lemma OneDigit()
    ensures FormatInt(0) == "0" && FormatInt(1) == "1"
  {
  }
}
