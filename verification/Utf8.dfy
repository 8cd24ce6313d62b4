/**
 UTF-8 (RFC 3629) between UTF-16 texts and bytes, as Buffer writes and reads it: a surrogate without its other
 half is written as the replacement character, and bytes that are no character are read as one.
 */
module Utf8 {
  import opened JsonGrammar
  import opened JsonCanonical
  import opened IpcFrames

  const REPLACEMENT: Unit := 0xFFFD

  predicate StartsPair(t: Text) { |t| >= 2 && IsHigh(t[0]) && IsLow(t[1]) }

  /** Every surrogate is half of a pair. */
  predicate Paired(t: Text) {
    if t == [] then true
    else if StartsPair(t) then Paired(t[2..])
    else !IsHigh(t[0]) && !IsLow(t[0]) && Paired(t[1..])
  }

  /** The text with every other surrogate replaced. */
  function Scrubbed(t: Text): Text {
    if t == [] then []
    else if StartsPair(t) then t[..2] + Scrubbed(t[2..])
    else [Scrub(t[0])] + Scrubbed(t[1..])
  }

  function Scrub(u: Unit): (v: Unit)
    ensures !IsHigh(v) && !IsLow(v)
  {
    if IsHigh(u) || IsLow(u) then REPLACEMENT else u
  }

  lemma {:induction false} PairedStays(t: Text)
    ensures Paired(t) <==> Scrubbed(t) == t
  {
    if StartsPair(t) {
      PairedStays(t[2..]);
      assert t == t[..2] + t[2..];
    } else if t != [] {
      PairedStays(t[1..]);
      assert t == [t[0]] + t[1..];
    }
  }

  lemma {:induction false} PairedConcat(a: Text, b: Text)
    requires Paired(a) && Paired(b)
    ensures Paired(a + b)
  {
    if a == [] {
      assert a + b == b;
    } else if StartsPair(a) {
      PairedConcat(a[2..], b);
      assert (a + b)[2..] == a[2..] + b;
    } else {
      PairedConcat(a[1..], b);
      assert (a + b)[1..] == a[1..] + b;
    }
  }

  // ---------------------------------------------------------------------------
  // Writing
  // ---------------------------------------------------------------------------

  type Point = n: nat | n < 0x110000

  function PointOf(high: Unit, low: Unit): (p: Point)
    requires IsHigh(high) && IsLow(low)
    ensures p >= 0x10000
  {
    0x10000 + (high - 0xD800) * 0x400 + (low - 0xDC00)
  }

  /** The text of a code point that is not a surrogate. */
  function TextOf(p: Point): Text {
    if p < 0x10000 then [p] else [0xD800 + (p - 0x10000) / 0x400, 0xDC00 + (p - 0x10000) % 0x400]
  }

  lemma PairIsPoint(high: Unit, low: Unit)
    requires IsHigh(high) && IsLow(low)
    ensures TextOf(PointOf(high, low)) == [high, low]
  {
  }

  function PointBytes(p: Point): (b: Bytes)
    ensures b != []
  {
    var q := p / 0x40;
    var r := q / 0x40;
    if p < 0x80 then [p]
    else if p < 0x800 then [0xC0 + q, 0x80 + p % 0x40]
    else if p < 0x10000 then [0xE0 + r, 0x80 + q % 0x40, 0x80 + p % 0x40]
    else [0xF0 + r / 0x40, 0x80 + r % 0x40, 0x80 + q % 0x40, 0x80 + p % 0x40]
  }

  /** Buffer.from(text, "utf8"). */
  function ToUtf8(t: Text): Bytes {
    if t == [] then []
    else if StartsPair(t) then PointBytes(PointOf(t[0], t[1])) + ToUtf8(t[2..])
    else PointBytes(Scrub(t[0])) + ToUtf8(t[1..])
  }

  // ---------------------------------------------------------------------------
  // Reading
  // ---------------------------------------------------------------------------

  predicate IsLead(b: Byte) { 0xC2 <= b <= 0xF4 }

  /** The second byte of a character: neither longer than need be, nor a surrogate, nor beyond the last point. */
  predicate IsSecond(lead: Byte, b: Byte) {
    && (if lead == 0xE0 then 0xA0 else if lead == 0xF0 then 0x90 else 0x80) <= b
    && b <= (if lead == 0xED then 0x9F else if lead == 0xF4 then 0x8F else 0xBF)
  }

  predicate IsTrail(b: Byte) { 0x80 <= b < 0xC0 }

  function LengthOf(lead: Byte): nat { if lead < 0xE0 then 2 else if lead < 0xF0 then 3 else 4 }

  /** How many of the first bytes belong together: a character, or as much of one as is there. */
  function Taken(b: Bytes): (n: nat)
    requires b != []
    ensures 1 <= n <= |b|
  {
    if !IsLead(b[0]) || |b| == 1 || !IsSecond(b[0], b[1]) then 1
    else if b[0] < 0xE0 || |b| == 2 || !IsTrail(b[2]) then 2
    else if b[0] < 0xF0 || |b| == 3 || !IsTrail(b[3]) then 3
    else 4
  }

  predicate IsWhole(b: Bytes)
    requires b != []
  {
    b[0] < 0x80 || (IsLead(b[0]) && Taken(b) == LengthOf(b[0]))
  }

  function Onto(bits: nat, b: Byte): nat
    requires IsTrail(b)
  {
    bits * 0x40 + (b - 0x80)
  }

  function PointAt(b: Bytes): (p: Point)
    requires b != [] && IsWhole(b)
  {
    if b[0] < 0x80 then b[0]
    else if b[0] < 0xE0 then Onto(b[0] - 0xC0, b[1])
    else if b[0] < 0xF0 then Onto(Onto(b[0] - 0xE0, b[1]), b[2])
    else Onto(Onto(Onto(b[0] - 0xF0, b[1]), b[2]), b[3])
  }

  /** buffer.toString("utf8"). */
  function FromUtf8(b: Bytes): Text {
    if b == [] then []
    else (if IsWhole(b) then TextOf(PointAt(b)) else [REPLACEMENT]) + FromUtf8(b[Taken(b)..])
  }

  // ---------------------------------------------------------------------------
  // Round trip
  // ---------------------------------------------------------------------------

  lemma PointReadsBack(p: Point, rest: Bytes)
    requires p < 0xD800 || p > 0xDFFF
    ensures var b := PointBytes(p) + rest;
      && IsWhole(b) && Taken(b) == |PointBytes(p)| && PointAt(b) == p && b[Taken(b)..] == rest
  {
    var bytes := PointBytes(p);
    var b := bytes + rest;
    assert b[|bytes|..] == rest;
    assert forall i :: 0 <= i < |bytes| ==> b[i] == bytes[i];
  }

  /** What is written reads back as itself, but for the surrogates that had no other half. */
  lemma {:induction false} TextReadsBack(t: Text)
    ensures FromUtf8(ToUtf8(t)) == Scrubbed(t)
  {
    hide IsWhole, Taken, PointAt, PointBytes, PointOf;
    if StartsPair(t) {
      PointReadsBack(PointOf(t[0], t[1]), ToUtf8(t[2..]));
      PairIsPoint(t[0], t[1]);
      TextReadsBack(t[2..]);
    } else if t != [] {
      PointReadsBack(Scrub(t[0]), ToUtf8(t[1..]));
      TextReadsBack(t[1..]);
    }
  }

  // ---------------------------------------------------------------------------
  // Canonical text
  // ---------------------------------------------------------------------------

  predicate Unpaired(t: Text) { forall i :: 0 <= i < |t| ==> !IsHigh(t[i]) && !IsLow(t[i]) }

  lemma {:induction false} UnpairedIsPaired(t: Text)
    requires Unpaired(t)
    ensures Paired(t)
  {
    if t != [] {
      UnpairedIsPaired(t[1..]);
    }
  }

  lemma EmptyIsPaired()
    ensures Paired([])
  {
  }

  /** A quoted string escapes every surrogate that is not half of a pair. */
  lemma {:induction false} QuotedIsPaired(text: Text, i: nat)
    requires i <= |text| && (0 < i < |text| && IsHigh(text[i - 1]) ==> !IsLow(text[i]))
    ensures Paired(RenderPieces(Quoted(text, i)))
    decreases |text| - i
  {
    hide QuotedUnit, RenderPiece, Unpaired, Paired;
    if i == |text| {
      EmptyIsPaired();
    } else if StartsPair(text[i..]) {
      PairIsPlain(text, i);
      QuotedIsPaired(text, i + 2);
      PairedConcat([text[i], text[i + 1]], RenderPieces(Quoted(text, i + 2)));
    } else {
      UnitIsUnpaired(text, i);
      QuotedIsPaired(text, i + 1);
      UnpairedIsPaired(RenderPiece(QuotedUnit(text, i)));
      PairedConcat(RenderPiece(QuotedUnit(text, i)), RenderPieces(Quoted(text, i + 1)));
    }
  }

  lemma QuotedUnfolds(text: Text, i: nat)
    requires i < |text|
    ensures RenderPieces(Quoted(text, i)) == RenderPiece(QuotedUnit(text, i)) + RenderPieces(Quoted(text, i + 1))
  {
    hide QuotedUnit, RenderPiece;
    assert Quoted(text, i)[1..] == Quoted(text, i + 1);
  }

  lemma PairIsPlain(text: Text, i: nat)
    requires i < |text| && StartsPair(text[i..])
    ensures RenderPieces(Quoted(text, i)) == [text[i], text[i + 1]] + RenderPieces(Quoted(text, i + 2))
    ensures Paired([text[i], text[i + 1]])
  {
    hide RenderPieces, Quoted;
    QuotedUnfolds(text, i);
    QuotedUnfolds(text, i + 1);
  }

  lemma UnitIsUnpaired(text: Text, i: nat)
    requires i < |text| && !StartsPair(text[i..])
    requires 0 < i && IsHigh(text[i - 1]) ==> !IsLow(text[i])
    ensures RenderPieces(Quoted(text, i)) == RenderPiece(QuotedUnit(text, i)) + RenderPieces(Quoted(text, i + 1))
    ensures Unpaired(RenderPiece(QuotedUnit(text, i)))
    ensures i + 1 < |text| && IsHigh(text[i]) ==> !IsLow(text[i + 1])
  {
    hide RenderPieces, Quoted, QuotedUnit, RenderPiece, Unpaired;
    QuotedUnfolds(text, i);
    UnitIsEscaped(text, i);
  }

  lemma UnitIsEscaped(text: Text, i: nat)
    requires i < |text| && !StartsPair(text[i..])
    requires 0 < i && IsHigh(text[i - 1]) ==> !IsLow(text[i])
    ensures Unpaired(RenderPiece(QuotedUnit(text, i)))
  {
    hide PieceValue, PieceOk;
    if IsHigh(text[i]) || IsLow(text[i]) {
      assert IsLone(text, i);
    }
  }

  lemma StringIsPaired(text: Text)
    ensures Paired(RenderString(Quoted(text, 0)))
  {
    hide Quoted, RenderPieces;
    QuotedIsPaired(text, 0);
    var inner := RenderPieces(Quoted(text, 0));
    PairedConcat([QUOTE], inner);
    PairedConcat([QUOTE] + inner, [QUOTE]);
  }

  lemma ScalarIsPaired(text: Text)
    requires IsScalar(text)
    ensures Paired(text)
  {
    hide Paired, RenderNumber, NumberOk;
    if text != TRUE && text != FALSE && text != NULL {
      var n: Number :| NumberOk(n) && RenderNumber(n) == text;
      NumberIsUnpaired(n);
    }
    UnpairedIsPaired(text);
  }

  lemma NumberIsUnpaired(n: Number)
    requires NumberOk(n)
    ensures Unpaired(RenderNumber(n))
  {
    hide NumberOk;
    DigitsAreUnpaired(n);
    var sign, start := if n.minus then [MINUS] else [], RenderFraction(n.fraction);
    UnpairedConcat(sign, n.whole);
    UnpairedConcat(sign + n.whole, start);
    UnpairedConcat(sign + n.whole + start, RenderExponent(n));
  }

  lemma DigitsAreUnpaired(n: Number)
    requires NumberOk(n)
    ensures Unpaired(n.whole) && Unpaired(RenderFraction(n.fraction)) && Unpaired(RenderExponent(n))
  {
  }

  lemma UnpairedConcat(a: Text, b: Text)
    requires Unpaired(a) && Unpaired(b)
    ensures Unpaired(a + b)
  {
  }

  /** Text between two marks. */
  lemma BetweenIsPaired(before: Unit, text: Text, after: Text)
    requires Paired(text) && Paired(after) && !IsHigh(before) && !IsLow(before)
    ensures Paired([before] + text + after)
  {
    PairedConcat([before], text);
    PairedConcat([before] + text, after);
  }

  lemma {:induction false} RenderIsPaired(v: Value)
    requires Proper(v)
    ensures Paired(Render(TreeOf(v)))
    decreases v
  {
    hide IsScalar, Quoted, RenderPieces, RenderString, Paired;
    match v {
      case VScalar(text) => ScalarIsPaired(text);
      case VString(text) => StringIsPaired(text);
      case VArray(items) =>
        MarkIsPaired(LEFT_BRACKET, RIGHT_BRACKET);
        if items != NoValue {
          ItemsArePaired(items);
          BetweenIsPaired(LEFT_BRACKET, RenderItems(ItemsOf(items)), [RIGHT_BRACKET]);
        }
      case VObject(fields) =>
        MarkIsPaired(LEFT_BRACE, RIGHT_BRACE);
        if fields != NoField {
          MembersArePaired(fields);
          BetweenIsPaired(LEFT_BRACE, RenderMembers(MembersOf(fields)), [RIGHT_BRACE]);
        }
    }
  }

  lemma MarkIsPaired(before: Unit, after: Unit)
    requires before < 0x80 && after < 0x80
    ensures Paired([after]) && Paired([before] + [] + [after])
  {
  }

  lemma {:induction false} ItemsArePaired(items: Values)
    requires ProperItems(items) && items != NoValue
    ensures Paired(RenderItems(ItemsOf(items)))
    decreases items
  {
    hide Paired;
    RenderIsPaired(items.value);
    assert RenderPadded(Bare(TreeOf(items.value))) == Render(TreeOf(items.value));
    if items.rest != NoValue {
      ItemsArePaired(items.rest);
      JoinIsPaired(Render(TreeOf(items.value)), COMMA, RenderItems(ItemsOf(items.rest)));
    }
  }

  lemma JoinIsPaired(a: Text, mark: Unit, b: Text)
    requires Paired(a) && Paired(b) && mark < 0x80
    ensures Paired(a + [mark] + b)
  {
    PairedConcat(a, [mark]);
    PairedConcat(a + [mark], b);
  }

  lemma {:induction false} MembersArePaired(fields: Fields)
    requires ProperFields(fields) && fields != NoField
    ensures Paired(RenderMembers(MembersOf(fields)))
    decreases fields
  {
    hide Paired, RenderString, Quoted;
    StringIsPaired(fields.name);
    RenderIsPaired(fields.value);
    var name, value := RenderString(Quoted(fields.name, 0)), Render(TreeOf(fields.value));
    JoinIsPaired(name, COLON, value);
    var member := Member([], Quoted(fields.name, 0), [], Bare(TreeOf(fields.value)));
    assert RenderMember(member) == name + [COLON] + value;
    if fields.rest != NoField {
      MembersArePaired(fields.rest);
      JoinIsPaired(name + [COLON] + value, COMMA, RenderMembers(MembersOf(fields.rest)));
    }
  }

  /** Canonical text is written and read back unchanged. */
  lemma CanonicalIsWritten(v: Value)
    requires Proper(v)
    ensures Paired(CanonicalJson(v)) && FromUtf8(ToUtf8(CanonicalJson(v))) == CanonicalJson(v)
  {
    hide Paired, Proper, FromUtf8, ToUtf8, Render, TreeOf, Normalize;
    NormalProper(v);
    RenderIsPaired(Normalize(v));
    TextReadsBack(CanonicalJson(v));
    PairedStays(CanonicalJson(v));
  }
}
