/**
 The scanner on every JSON text: it reads the whole text, and refuses it exactly when some object in
 it has two fields with the same unescaped name.
 */
module JsonTexts {
  import opened Common
  import opened JsonGrammar
  import opened JsonScan

  lemma Split(text: Text, i: nat, a: Text, b: Text)
    requires StartsAt(text, i, a + b)
    ensures StartsAt(text, i, a) && StartsAt(text, i + |a|, b)
  {
    var whole := text[i..i + |a + b|];
    assert whole[..|a|] == a && whole[|a|..] == b;
    assert text[i..i + |a|] == whole[..|a|];
    assert text[i + |a|..i + |a| + |b|] == whole[|a|..];
  }

  lemma FirstAt(text: Text, i: nat, word: Text)
    requires StartsAt(text, i, word)
    ensures i + |word| <= |text| && (word != [] ==> text[i] == word[0])
  {
    assert word != [] ==> text[i] == text[i..i + |word|][0];
  }

  /** A value may be followed by white space, a separator, a closing bracket, or nothing. */
  predicate Stops(text: Text, j: nat) {
    j <= |text| && (j < |text| ==> IsSpace(text[j]) || text[j] in {COMMA, RIGHT_BRACKET, RIGHT_BRACE})
  }

  /** A padded value may be followed by all of these but white space. */
  predicate Closes(text: Text, j: nat) {
    j <= |text| && (j < |text| ==> text[j] in {COMMA, RIGHT_BRACKET, RIGHT_BRACE})
  }

  // ---------------------------------------------------------------------------
  // White space, strings and scalars
  // ---------------------------------------------------------------------------

  lemma {:induction false} SkipsSpaces(text: Text, i: nat, spaces: Text)
    requires StartsAt(text, i, spaces) && Spaces(spaces)
    requires i + |spaces| < |text| ==> !IsBlank(text[i + |spaces|])
    ensures SkipBlanks(text, i) == i + |spaces|
    decreases |spaces|
  {
    if spaces != [] {
      assert text[i] == text[i..i + |spaces|][0] == spaces[0];
      assert text[i + 1..i + 1 + |spaces[1..]|] == text[i..i + |spaces|][1..];
      SkipsSpaces(text, i + 1, spaces[1..]);
    }
  }

  lemma {:induction false} StringEnds(text: Text, i: nat, ps: seq<Piece>)
    requires PiecesOk(ps) && StartsAt(text, i, RenderPieces(ps) + [QUOTE])
    ensures StringEnd(text, i) == Some(i + |RenderPieces(ps)| + 1)
    decreases |ps|
  {
    hide StartsAt, RenderPiece, PieceOk, HexAt;
    FirstAt(text, i, RenderPieces(ps) + [QUOTE]);
    if ps != [] {
      var first, rest := RenderPiece(ps[0]), RenderPieces(ps[1..]);
      assert first + rest + [QUOTE] == first + (rest + [QUOTE]);
      Split(text, i, first, rest + [QUOTE]);
      StringEnds(text, i + |first|, ps[1..]);
      PieceUnits(text, i, ps[0]);
      PieceIsPlain(ps[0]);
    }
  }

  lemma PieceIsPlain(p: Piece)
    requires PieceOk(p)
    ensures p.Plain? ==> p.u != QUOTE && p.u != BACKSLASH
    ensures p.Short? ==> p.e != LOWER_U
  {
  }

  lemma PieceUnits(text: Text, i: nat, p: Piece)
    requires PieceOk(p) && StartsAt(text, i, RenderPiece(p))
    ensures i + |RenderPiece(p)| <= |text|
    ensures match p
      case Plain(u) => |RenderPiece(p)| == 1 && text[i] == u
      case Short(e) => |RenderPiece(p)| == 2 && text[i] == BACKSLASH && text[i + 1] == e
      case Hex(_, _, _, _) =>
        |RenderPiece(p)| == 6 && text[i] == BACKSLASH && text[i + 1] == LOWER_U && HexAt(text, i) == p
  {
    var t := RenderPiece(p);
    assert text[i + 0] == t[0];
    if !p.Plain? {
      assert text[i + 1] == t[1];
    }
    if p.Hex? {
      assert text[i + 2] == t[2] && text[i + 3] == t[3] && text[i + 4] == t[4] && text[i + 5] == t[5];
    }
  }

  lemma {:induction false} Unquotes(text: Text, i: nat, ps: seq<Piece>)
    requires PiecesOk(ps) && StartsAt(text, i, RenderPieces(ps))
    ensures Unquote(text, i, i + |RenderPieces(ps)|) == Some(Unescaped(ps))
    decreases |ps|
  {
    if ps != [] {
      var first, rest := RenderPiece(ps[0]), RenderPieces(ps[1..]);
      Split(text, i, first, rest);
      Unquotes(text, i + |first|, ps[1..]);
      PieceUnits(text, i, ps[0]);
    }
  }

  lemma ReadsString(text: Text, i: nat, ps: seq<Piece>)
    requires PiecesOk(ps) && StartsAt(text, i, RenderString(ps))
    ensures ReadString(text, i) == At(i + |RenderString(ps)|, Unescaped(ps))
    ensures i < |text| && text[i] == QUOTE
  {
    hide RenderPieces, Unescaped, Unquote, StringEnd;
    var body := RenderPieces(ps);
    assert RenderString(ps) == [QUOTE] + (body + [QUOTE]);
    Split(text, i, [QUOTE], body + [QUOTE]);
    assert text[i] == text[i..i + 1][0];
    StringEnds(text, i + 1, ps);
    Split(text, i + 1, body, [QUOTE]);
    Unquotes(text, i + 1, ps);
  }

  lemma {:induction false} SkipsDigits(text: Text, i: nat, digits: Text)
    requires StartsAt(text, i, digits) && Digits(digits)
    requires !DigitAt(text, i + |digits|)
    ensures SkipDigits(text, i) == i + |digits|
    ensures digits != [] ==> DigitAt(text, i)
    decreases |digits|
  {
    if digits != [] {
      assert text[i] == text[i..i + |digits|][0] == digits[0];
      assert text[i + 1..i + 1 + |digits[1..]|] == text[i..i + |digits|][1..];
      SkipsDigits(text, i + 1, digits[1..]);
    }
  }

  /** The unit at `j` cannot continue a number. */
  predicate NoMore(text: Text, j: nat) {
    j < |text| ==> !IsDigit(text[j]) && text[j] != DOT && text[j] !in {LOWER_E, UPPER_E}
  }

  lemma ExponentEnds(text: Text, i: nat, n: Number)
    requires NumberOk(n) && StartsAt(text, i, RenderExponent(n)) && NoMore(text, i + |RenderExponent(n)|)
    ensures ExponentEnd(text, i) == i + |RenderExponent(n)|
    ensures !DigitAt(text, i) && (i < |text| ==> text[i] != DOT)
  {
    hide StartsAt, Digits;
    FirstAt(text, i, RenderExponent(n));
    if n.mark.Some? {
      var sign := if n.sign.Some? then [n.sign.value] else [];
      assert RenderExponent(n) == [n.mark.value] + (sign + n.exponent);
      Split(text, i, [n.mark.value], sign + n.exponent);
      Split(text, i + 1, sign, n.exponent);
      FirstAt(text, i + 1, sign);
      SkipsDigits(text, i + 1 + |sign|, n.exponent);
    }
  }

  lemma FractionEnds(text: Text, i: nat, fraction: Text)
    requires Digits(fraction) && StartsAt(text, i, RenderFraction(fraction))
    requires var j := i + |RenderFraction(fraction)|; !DigitAt(text, j) && (j < |text| ==> text[j] != DOT)
    ensures FractionEnd(text, i) == i + |RenderFraction(fraction)|
    ensures !DigitAt(text, i)
  {
    if fraction != [] {
      Split(text, i, [DOT], fraction);
      assert text[i] == text[i..i + 1][0];
      SkipsDigits(text, i + 1, fraction);
    }
  }

  lemma NumberParts(text: Text, i: nat, n: Number)
    requires StartsAt(text, i, RenderNumber(n))
    ensures var a := i + (if n.minus then 1 else 0);
      var b := a + |n.whole|;
      var c := b + |RenderFraction(n.fraction)|;
      && StartsAt(text, a, n.whole) && StartsAt(text, b, RenderFraction(n.fraction)) &&
        StartsAt(text, c, RenderExponent(n))
      && (n.minus ==> text[i] == MINUS)
      && c + |RenderExponent(n)| == i + |RenderNumber(n)|
  {
    hide RenderFraction, RenderExponent, StartsAt;
    var minus := if n.minus then [MINUS] else [];
    var fraction, exponent := RenderFraction(n.fraction), RenderExponent(n);
    assert RenderNumber(n) == minus + (n.whole + (fraction + exponent));
    Split(text, i, minus, n.whole + (fraction + exponent));
    Split(text, i + |minus|, n.whole, fraction + exponent);
    Split(text, i + |minus| + |n.whole|, fraction, exponent);
    FirstAt(text, i, minus);
  }

  lemma NumberEnds(text: Text, i: nat, n: Number)
    requires NumberOk(n) && StartsAt(text, i, RenderNumber(n)) && NoMore(text, i + |RenderNumber(n)|)
    ensures NumberEnd(text, i) == Some(i + |RenderNumber(n)|)
    ensures text[i] == if n.minus then MINUS else n.whole[0]
  {
    hide RenderFraction, RenderExponent, RenderNumber, FractionEnd, ExponentEnd;
    NumberParts(text, i, n);
    var a := i + (if n.minus then 1 else 0);
    var b := a + |n.whole|;
    var c := b + |RenderFraction(n.fraction)|;
    ExponentEnds(text, c, n);
    FractionEnds(text, b, n.fraction);
    SkipsDigits(text, a, n.whole);
    assert text[a] == text[a..b][0] == n.whole[0];
  }

  lemma WordEnds(text: Text, i: nat, word: Text)
    requires word in {TRUE, FALSE, NULL} && StartsAt(text, i, word)
    ensures ScalarEnd(text, i) == Some(i + |word|)
  {
    assert text[i] == text[i..i + |word|][0] == word[0];
    assert NumberEnd(text, i) == None;
    assert text[i + 1] == text[i..i + |word|][1] == word[1];
    assert forall w: Text :: StartsAt(text, i, w) && w != [] ==> text[i..i + |w|][0] == w[0];
  }

  lemma ReadsScalar(text: Text, i: nat, word: Text)
    requires IsScalar(word) && StartsAt(text, i, word) && Stops(text, i + |word|)
    ensures ScalarEnd(text, i) == Some(i + |word|)
    ensures |word| > 0 && text[i] == word[0] && !IsBlank(word[0])
    ensures word[0] != LEFT_BRACE && word[0] != LEFT_BRACKET && word[0] != QUOTE
  {
    hide StartsAt, NumberEnd, RenderNumber, NumberOk;
    FirstAt(text, i, word);
    ScalarFirst(word);
    if word in {TRUE, FALSE, NULL} {
      WordEnds(text, i, word);
    } else {
      var n: Number :| NumberOk(n) && RenderNumber(n) == word;
      NumberEnds(text, i, n);
    }
  }

  // ---------------------------------------------------------------------------
  // Values
  // ---------------------------------------------------------------------------

  lemma ScalarFirst(word: Text)
    requires IsScalar(word)
    ensures |word| > 0 && (word[0] == MINUS || IsDigit(word[0]) || word[0] in {LOWER_T, LOWER_F, LOWER_N})
  {
    if word !in {TRUE, FALSE, NULL} {
      var n: Number :| NumberOk(n) && RenderNumber(n) == word;
      hide RenderFraction, RenderExponent;
      assert word[0] == (if n.minus then MINUS else n.whole[0]);
    }
  }

  /** A value starts with none of the units that may stand before or after it. */
  lemma FirstUnit(t: Tree)
    requires TreeOk(t)
    ensures |Render(t)| > 0
    ensures var u := Render(t)[0]; !IsBlank(u) && u != RIGHT_BRACKET && u != RIGHT_BRACE
  {
    if t.Scalar? {
      ScalarFirst(t.text);
    }
  }

  ghost function Expect(end: nat, v: Value): Seen<Value> { if Unique(v) then At(end, v) else Duplicate }

  ghost function ExpectItems(end: nat, vs: Values): Seen<Values> { if UniqueItems(vs) then At(end, vs) else Duplicate }

  ghost function ExpectFields(end: nat, fs: Fields, seen: set<Text>): Seen<Fields> {
    if UniqueFields(fs) && Names(fs) !! seen then At(end, fs) else Duplicate
  }

  lemma UnitAt(text: Text, i: nat, u: Unit)
    requires StartsAt(text, i, [u])
    ensures text[i] == u
  {
    assert text[i] == text[i..i + 1][0];
  }

  lemma Bracketed(text: Text, k: nat, open: Unit, body: Text, close: Unit)
    requires StartsAt(text, k, [open] + body + [close])
    ensures text[k] == open && StartsAt(text, k + 1, body + [close])
  {
    assert [open] + body + [close] == [open] + (body + [close]);
    Split(text, k, [open], body + [close]);
    UnitAt(text, k, open);
  }

  lemma Separated(text: Text, i: nat, first: Text, rest: Text, close: Unit)
    requires StartsAt(text, i, first + [COMMA] + rest + [close])
    ensures StartsAt(text, i, first) && StartsAt(text, i + |first| + 1, rest + [close])
    ensures text[i + |first|] == COMMA
  {
    assert first + [COMMA] + rest + [close] == first + ([COMMA] + rest + [close]);
    Split(text, i, first, [COMMA] + rest + [close]);
    Bracketed(text, i + |first|, COMMA, rest, close);
  }

  lemma MemberParts(text: Text, i: nat, m: Member)
    requires StartsAt(text, i, RenderMember(m))
    ensures var a := i + |m.before|;
      var b := a + |RenderString(m.name)|;
      var c := b + |m.middle|;
      && StartsAt(text, i, m.before) && StartsAt(text, a, RenderString(m.name)) && StartsAt(text, b, m.middle)
      && c < |text| && text[c] == COLON && StartsAt(text, c + 1, RenderPadded(m.value))
      && c + 1 + |RenderPadded(m.value)| == i + |RenderMember(m)|
  {
    hide RenderString, RenderPadded;
    var name, value := RenderString(m.name), RenderPadded(m.value);
    Split(text, i, m.before + name + m.middle + [COLON], value);
    Split(text, i, m.before + name + m.middle, [COLON]);
    Split(text, i, m.before + name, m.middle);
    Split(text, i, m.before, name);
    UnitAt(text, i + |m.before + name + m.middle|, COLON);
  }

  /** Where the blanks before a value lead. */
  lemma SkipsTo(text: Text, i: nat, before: Text, t: Tree)
    requires Spaces(before) && TreeOk(t) && StartsAt(text, i, before + Render(t))
    ensures var k := i + |before|;
      && SkipBlanks(text, i) == k < |text| && StartsAt(text, k, Render(t))
      && text[k] != RIGHT_BRACKET && text[k] != RIGHT_BRACE
  {
    hide Render, TreeOk;
    FirstUnit(t);
    Split(text, i, before, Render(t));
    var k := i + |before|;
    assert text[k] == text[k..k + |Render(t)|][0];
    SkipsSpaces(text, i, before);
  }

  lemma BlankIdle(text: Text, i: nat)
    requires i <= |text|
    ensures SkipBlanks(text, SkipBlanks(text, i)) == SkipBlanks(text, i)
    ensures ReadValue(text, SkipBlanks(text, i)) == ReadValue(text, i)
  {
  }

  lemma ItemsIdle(text: Text, i: nat)
    requires i <= |text|
    ensures ReadItems(text, SkipBlanks(text, i)) == ReadItems(text, i)
  {
    hide ReadValue;
    BlankIdle(text, i);
    if i < |text| && SkipBlanks(text, i) == |text| {
      NothingAtEnd(text);
    }
  }

  lemma NothingAtEnd(text: Text)
    ensures ReadValue(text, |text|) == Bad
  {
  }

  lemma MembersIdle(text: Text, i: nat, seen: set<Text>)
    requires i <= |text|
    ensures ReadMembers(text, SkipBlanks(text, i), seen) == ReadMembers(text, i, seen)
  {
    BlankIdle(text, i);
  }

  /** A padded value is read to its end, and the blanks after it lead past it. */
  lemma ReadsPadded(text: Text, i: nat, p: Padded)
    requires PadOk(p) && TreeOk(p.tree) && StartsAt(text, i, RenderPadded(p)) && Closes(text, i + |RenderPadded(p)|)
    ensures var e := i + |p.before| + |Render(p.tree)|;
      && e <= |text| && ReadValue(text, i) == Expect(e, Meaning(p.tree))
      && SkipBlanks(text, e) == i + |RenderPadded(p)|
    decreases p, 1
  {
    hide Render, TreeOk, ReadValue, Meaning, Unique;
    assert RenderPadded(p) == (p.before + Render(p.tree)) + p.after;
    Split(text, i, p.before + Render(p.tree), p.after);
    var e := i + |p.before + Render(p.tree)|;
    if p.after != [] {
      assert text[e] == text[e..e + |p.after|][0] == p.after[0];
    }
    ReadsTree(text, i, p.before, p.tree);
    SkipsSpaces(text, e, p.after);
  }

  lemma ReadsTree(text: Text, i: nat, before: Text, t: Tree)
    requires Spaces(before) && TreeOk(t) && StartsAt(text, i, before + Render(t))
    requires Stops(text, i + |before| + |Render(t)|)
    ensures ReadValue(text, i) == Expect(i + |before| + |Render(t)|, Meaning(t))
    decreases t, 0
  {
    hide ReadValue, ReadItems, ReadMembers, ReadString, ScalarEnd, SkipBlanks, RenderItems, RenderMembers, RenderString,
         IsScalar, ItemsOk, MembersOk, ItemsMeaning, MembersMeaning, Unescaped;
    var k := i + |before|;
    SkipsTo(text, i, before, t);
    match t {
      case Scalar(word) => ReadsWord(text, i, k, word);
      case Str(pieces) => ReadsQuoted(text, i, k, pieces);
      case EmptyArray(pad) =>
        OpensAndCloses(text, k, LEFT_BRACKET, pad, RIGHT_BRACKET);
        ReadsEmpty(text, i, k);
      case EmptyObject(pad) =>
        OpensAndCloses(text, k, LEFT_BRACE, pad, RIGHT_BRACE);
        ReadsEmpty(text, i, k);
      case Array(items) => ReadsArray(text, i, k, items);
      case Object(members) => ReadsObject(text, i, k, members);
    }
  }

  lemma ReadsWord(text: Text, i: nat, k: nat, word: Text)
    requires IsScalar(word) && i <= |text| && SkipBlanks(text, i) == k && StartsAt(text, k, word) &&
      Stops(text, k + |word|)
    ensures ReadValue(text, i) == At(k + |word|, VScalar(word))
  {
    hide ReadItems, ReadMembers, ReadString, ScalarEnd, SkipBlanks;
    ReadsScalar(text, k, word);
  }

  lemma ReadsQuoted(text: Text, i: nat, k: nat, ps: seq<Piece>)
    requires PiecesOk(ps) && i <= |text| && SkipBlanks(text, i) == k && StartsAt(text, k, RenderString(ps))
    ensures ReadValue(text, i) == At(k + |RenderString(ps)|, VString(Unescaped(ps)))
  {
    hide ReadItems, ReadMembers, ReadString, ScalarEnd, SkipBlanks, RenderString;
    ReadsString(text, k, ps);
  }

  lemma ReadsEmpty(text: Text, i: nat, k: nat)
    requires i <= |text| && SkipBlanks(text, i) == k < |text| && SkipBlanks(text, k + 1) < |text|
    ensures var c := SkipBlanks(text, k + 1);
      && (text[k] == LEFT_BRACKET && text[c] == RIGHT_BRACKET ==> ReadValue(text, i) == At(c + 1, VArray(NoValue)))
      && (text[k] == LEFT_BRACE && text[c] == RIGHT_BRACE ==> ReadValue(text, i) == At(c + 1, VObject(NoField)))
    ensures Unique(VArray(NoValue)) && Unique(VObject(NoField))
  {
    hide ReadItems, ReadMembers, ReadString, ScalarEnd, SkipBlanks;
  }

  lemma ReadsArray(text: Text, i: nat, k: nat, items: Items)
    requires ItemsOk(items) && i <= |text| && SkipBlanks(text, i) == k
    requires StartsAt(text, k, [LEFT_BRACKET] + RenderItems(items) + [RIGHT_BRACKET])
    ensures ReadValue(text, i) == Expect(k + |RenderItems(items)| + 2, VArray(ItemsMeaning(items)))
    decreases items, 3
  {
    hide ReadItems, ReadMembers, ReadString, ScalarEnd, SkipBlanks, RenderItems, ItemsOk, ItemsMeaning;
    Bracketed(text, k, LEFT_BRACKET, RenderItems(items), RIGHT_BRACKET);
    ReadsItems(text, k + 1, items);
    ItemsIdle(text, k + 1);
    FirstOfItems(text, k + 1, items);
  }

  lemma ReadsObject(text: Text, i: nat, k: nat, members: Members)
    requires MembersOk(members) && i <= |text| && SkipBlanks(text, i) == k
    requires StartsAt(text, k, [LEFT_BRACE] + RenderMembers(members) + [RIGHT_BRACE])
    ensures ReadValue(text, i) == Expect(k + |RenderMembers(members)| + 2, VObject(MembersMeaning(members)))
    decreases members, 4
  {
    hide ReadItems, ReadMembers, ReadString, ScalarEnd, SkipBlanks, RenderMembers, MembersOk, MembersMeaning, Names;
    Bracketed(text, k, LEFT_BRACE, RenderMembers(members), RIGHT_BRACE);
    ReadsMembers(text, k + 1, members, {});
    MembersIdle(text, k + 1, {});
    FirstOfMembers(text, k + 1, members);
  }

  lemma OpensAndCloses(text: Text, k: nat, open: Unit, pad: Text, close: Unit)
    requires Spaces(pad) && !IsBlank(close) && StartsAt(text, k, [open] + pad + [close])
    ensures text[k] == open && SkipBlanks(text, k + 1) == k + 1 + |pad| < |text| && text[k + 1 + |pad|] == close
  {
    assert [open] + pad + [close] == [open] + (pad + [close]);
    Split(text, k, [open], pad + [close]);
    Split(text, k + 1, pad, [close]);
    UnitAt(text, k, open);
    UnitAt(text, k + 1 + |pad|, close);
    SkipsSpaces(text, k + 1, pad);
  }

  lemma FirstOfItems(text: Text, i: nat, items: Items)
    requires ItemsOk(items) && StartsAt(text, i, RenderItems(items) + [RIGHT_BRACKET])
    ensures SkipBlanks(text, i) < |text| && text[SkipBlanks(text, i)] != RIGHT_BRACKET
  {
    hide Render, TreeOk;
    var p := items.item;
    match items {
      case Last(_) => Split(text, i, RenderPadded(p), [RIGHT_BRACKET]);
      case More(_, rest) => Separated(text, i, RenderPadded(p), RenderItems(rest), RIGHT_BRACKET);
    }
    Split(text, i, p.before + Render(p.tree), p.after);
    SkipsTo(text, i, p.before, p.tree);
  }

  lemma FirstOfMembers(text: Text, i: nat, members: Members)
    requires MembersOk(members) && StartsAt(text, i, RenderMembers(members) + [RIGHT_BRACE])
    ensures SkipBlanks(text, i) < |text| && text[SkipBlanks(text, i)] != RIGHT_BRACE
  {
    hide TreeOk, RenderString, RenderMember;
    var m := members.member;
    match members {
      case LastMember(_) => Split(text, i, RenderMember(m), [RIGHT_BRACE]);
      case MoreMembers(_, rest) => Separated(text, i, RenderMember(m), RenderMembers(rest), RIGHT_BRACE);
    }
    MemberParts(text, i, m);
    ReadsString(text, i + |m.before|, m.name);
    SkipsSpaces(text, i, m.before);
  }

  lemma ReadsItems(text: Text, i: nat, items: Items)
    requires ItemsOk(items) && StartsAt(text, i, RenderItems(items) + [RIGHT_BRACKET])
    ensures ReadItems(text, i) == ExpectItems(i + |RenderItems(items)| + 1, ItemsMeaning(items))
    decreases items, 2
  {
    hide Render, TreeOk, ReadValue, Meaning, Unique, SkipBlanks, RenderPadded, StartsAt;
    var p := items.item;
    var first := RenderPadded(p);
    var j := i + |first|;
    match items {
      case Last(_) =>
        Split(text, i, first, [RIGHT_BRACKET]);
        UnitAt(text, j, RIGHT_BRACKET);
        ReadsPadded(text, i, p);
        assert ItemsMeaning(items) == Cons(Meaning(p.tree), NoValue) && UniqueItems(NoValue);
      case More(_, rest) =>
        Separated(text, i, first, RenderItems(rest), RIGHT_BRACKET);
        ReadsPadded(text, i, p);
        ReadsItems(text, j + 1, rest);
    }
  }

  lemma ReadsMember(text: Text, i: nat, m: Member, seen: set<Text>)
    requires NameOk(m) && TreeOk(m.value.tree) && StartsAt(text, i, RenderMember(m)) &&
      Closes(text, i + |RenderMember(m)|)
    ensures var name, r := Unescaped(m.name), ReadMember(text, i, seen);
      if name in seen || !Unique(Meaning(m.value.tree)) then r == Duplicate
      else && r.At? && r.value == (name, Meaning(m.value.tree))
           && SkipBlanks(text, r.end) == i + |RenderMember(m)|
    decreases m, 2
  {
    hide Render, TreeOk, ReadValue, Meaning, Unique, SkipBlanks, RenderPadded, RenderString, RenderMember, ReadString,
         Unescaped;
    MemberParts(text, i, m);
    var a := i + |m.before|;
    var b := a + |RenderString(m.name)|;
    var c := b + |m.middle|;
    ReadsString(text, a, m.name);
    SkipsSpaces(text, i, m.before);
    SkipsSpaces(text, b, m.middle);
    ReadsPadded(text, c + 1, m.value);
  }

  lemma ReadsMembers(text: Text, i: nat, members: Members, seen: set<Text>)
    requires MembersOk(members) && StartsAt(text, i, RenderMembers(members) + [RIGHT_BRACE])
    ensures ReadMembers(text, i, seen) == ExpectFields(i + |RenderMembers(members)| + 1, MembersMeaning(members), seen)
    decreases members, 3
  {
    hide Render, TreeOk, ReadMember, Meaning, Unique, SkipBlanks, RenderMember, Unescaped, StartsAt;
    var m := members.member;
    var first := RenderMember(m);
    var j := i + |first|;
    match members {
      case LastMember(_) =>
        Split(text, i, first, [RIGHT_BRACE]);
        UnitAt(text, j, RIGHT_BRACE);
        ReadsMember(text, i, m, seen);
        assert MembersMeaning(members) == Field(Unescaped(m.name), Meaning(m.value.tree), NoField);
        assert UniqueFields(NoField) && Names(MembersMeaning(members)) == {Unescaped(m.name)};
      case MoreMembers(_, rest) =>
        Separated(text, i, first, RenderMembers(rest), RIGHT_BRACE);
        ReadsMember(text, i, m, seen);
        ReadsMembers(text, j + 1, rest, seen + {Unescaped(m.name)});
    }
  }

  /** On a JSON text the scanner finds the value, to the end, or a repeated name if there is one. */
  lemma ReadsText(p: Padded)
    requires PadOk(p) && TreeOk(p.tree)
    ensures ReadText(RenderPadded(p)) ==
      if Unique(Meaning(p.tree)) then At(|RenderPadded(p)|, Meaning(p.tree)) else Duplicate
  {
    hide Render, TreeOk, ReadValue, Meaning, Unique, SkipBlanks;
    var text := RenderPadded(p);
    assert text[0..|text|] == text;
    ReadsPadded(text, 0, p);
  }

  /** The grammar is unambiguous as far as values go, and repeated names are a matter of the text alone. */
  lemma TextsAreUnambiguous(p: Padded, q: Padded)
    requires PadOk(p) && TreeOk(p.tree) && PadOk(q) && TreeOk(q.tree)
    requires RenderPadded(p) == RenderPadded(q)
    ensures Unique(Meaning(p.tree)) <==> Unique(Meaning(q.tree))
    ensures Unique(Meaning(p.tree)) ==> Meaning(p.tree) == Meaning(q.tree)
  {
    hide *;
    ReadsText(p);
    ReadsText(q);
  }

  /** The scanner run on a text: on a JSON text it refuses repeated names, and nothing else. */
  method RefuseDuplicates(text: Text) returns (verdict: Verdict)
    ensures forall p: Padded :: PadOk(p) && TreeOk(p.tree) && RenderPadded(p) == text ==>
      verdict == if Unique(Meaning(p.tree)) then Fine else DuplicateKey
  {
    var scanner := new Scanner(text);
    verdict := scanner.Check();
    hide ReadText, RenderPadded, TreeOk, Unique, Meaning;
    forall p: Padded | PadOk(p) && TreeOk(p.tree) && RenderPadded(p) == text
      ensures verdict == if Unique(Meaning(p.tree)) then Fine else DuplicateKey
    {
      ReadsText(p);
    }
  }
}
