/**
 What the scanner accepts: a JSON text, but for white space, which is the wider notion of a regular expression.
 */
module JsonAccepts {
  import opened Common
  import opened JsonGrammar
  import opened JsonScan
  import opened JsonTexts

  predicate Blanks(t: Text) { forall i :: 0 <= i < |t| ==> IsBlank(t[i]) }

  /** A derivation in which white space is what the scanner takes for it. */
  ghost predicate Loose(t: Tree) {
    match t
    case Scalar(text) => IsScalar(text)
    case Str(pieces) => PiecesOk(pieces)
    case EmptyArray(pad) => Blanks(pad)
    case Array(items) => LooseItems(items)
    case EmptyObject(pad) => Blanks(pad)
    case Object(members) => LooseMembers(members)
  }

  ghost predicate LoosePadded(p: Padded) { Blanks(p.before) && Loose(p.tree) && Blanks(p.after) }

  ghost predicate LooseItems(items: Items) {
    LoosePadded(items.item) && (items.More? ==> LooseItems(items.rest))
  }

  ghost predicate LooseMember(m: Member) {
    Blanks(m.before) && PiecesOk(m.name) && Blanks(m.middle) && LoosePadded(m.value)
  }

  ghost predicate LooseMembers(members: Members) {
    LooseMember(members.member) && (members.MoreMembers? ==> LooseMembers(members.rest))
  }

  /** The derivation without its white space. */
  function Bared(t: Tree): Tree {
    match t
    case EmptyArray(_) => EmptyArray([])
    case Array(items) => Array(BaredItems(items))
    case EmptyObject(_) => EmptyObject([])
    case Object(members) => Object(BaredMembers(members))
    case _ => t
  }

  function BaredPadded(p: Padded): Padded { Padded([], Bared(p.tree), []) }

  function BaredItems(items: Items): Items {
    match items
    case Last(item) => Last(BaredPadded(item))
    case More(item, rest) => More(BaredPadded(item), BaredItems(rest))
  }

  function BaredMember(m: Member): Member { Member([], m.name, [], BaredPadded(m.value)) }

  function BaredMembers(members: Members): Members {
    match members
    case LastMember(m) => LastMember(BaredMember(m))
    case MoreMembers(m, rest) => MoreMembers(BaredMember(m), BaredMembers(rest))
  }

  lemma BlanksConcat(a: Text, b: Text)
    requires Blanks(a) && Blanks(b)
    ensures Blanks(a + b)
  {
  }

  lemma {:induction false} SkippedAreBlanks(text: Text, i: nat)
    requires i <= |text|
    ensures Blanks(text[i..SkipBlanks(text, i)])
    decreases |text| - i
  {
    if i < |text| && IsBlank(text[i]) {
      SkippedAreBlanks(text, i + 1);
      assert text[i..SkipBlanks(text, i)] == [text[i]] + text[i + 1..SkipBlanks(text, i + 1)];
    }
  }

  // ---------------------------------------------------------------------------
  // Strings and scalars
  // ---------------------------------------------------------------------------

  lemma UnquotedPiece(text: Text, i: nat, stop: nat) returns (p: Piece, n: nat)
    requires i < stop <= |text| && Unquote(text, i, stop).Some?
    ensures PieceOk(p) && i < n <= stop && RenderPiece(p) == text[i..n]
    ensures Unquote(text, i, stop) == Prepend(PieceValue(p), Unquote(text, n, stop))
  {
    p := if IsPlain(text[i]) then Plain(text[i])
      else if text[i] == BACKSLASH && i + 1 < stop && IsShort(text[i + 1]) then Short(text[i + 1])
      else HexAt(text, i);
    n := i + |RenderPiece(p)|;
  }

  lemma OnePieceMore(p: Piece, rest: seq<Piece>)
    requires PieceOk(p) && PiecesOk(rest)
    ensures PiecesOk([p] + rest) && RenderPieces([p] + rest) == RenderPiece(p) + RenderPieces(rest)
    ensures Unescaped([p] + rest) == [PieceValue(p)] + Unescaped(rest)
  {
    hide PieceOk, RenderPiece, PieceValue;
    assert ([p] + rest)[1..] == rest;
  }

  lemma {:induction false} UnquotedPieces(text: Text, i: nat, stop: nat) returns (ps: seq<Piece>)
    requires i <= stop <= |text| && Unquote(text, i, stop).Some?
    ensures PiecesOk(ps) && RenderPieces(ps) == text[i..stop] && Unquote(text, i, stop) == Some(Unescaped(ps))
    decreases stop - i
  {
    if i == stop {
      ps := [];
    } else {
      hide Unquote, PieceOk, PiecesOk, RenderPiece, RenderPieces, PieceValue, Unescaped;
      var p, n := UnquotedPiece(text, i, stop);
      var rest := UnquotedPieces(text, n, stop);
      OnePieceMore(p, rest);
      ps := [p] + rest;
      assert text[i..stop] == text[i..n] + text[n..stop];
    }
  }

  lemma ReadPieces(text: Text, i: nat) returns (ps: seq<Piece>)
    requires ReadString(text, i).At?
    ensures PiecesOk(ps) && RenderString(ps) == text[i..ReadString(text, i).end]
    ensures ReadString(text, i).value == Unescaped(ps)
  {
    hide StringEnd, Unquote, RenderPieces, Unescaped;
    var end := ReadString(text, i).end;
    EndsInQuote(text, i + 1);
    ps := UnquotedPieces(text, i + 1, end - 1);
    assert text[i..end] == [text[i]] + text[i + 1..end - 1] + [text[end - 1]];
  }

  lemma {:induction false} EndsInQuote(text: Text, i: nat)
    ensures StringEnd(text, i).Some? ==> text[StringEnd(text, i).value - 1] == QUOTE
    decreases |text| - i
  {
    if i < |text| && text[i] != QUOTE {
      if text[i] == BACKSLASH {
        EndsInQuote(text, if i + 1 < |text| && text[i + 1] == LOWER_U then i + 6 else i + 2);
      } else {
        EndsInQuote(text, i + 1);
      }
    }
  }

  lemma {:induction false} SkippedAreDigits(text: Text, i: nat)
    requires i <= |text|
    ensures Digits(text[i..SkipDigits(text, i)]) && (DigitAt(text, i) ==> SkipDigits(text, i) > i)
    decreases |text| - i
  {
    if i < |text| && IsDigit(text[i]) {
      SkippedAreDigits(text, i + 1);
      assert text[i..SkipDigits(text, i)] == [text[i]] + text[i + 1..SkipDigits(text, i + 1)];
    }
  }

  lemma ReadFraction(text: Text, i: nat) returns (fraction: Text)
    requires i <= |text|
    ensures Digits(fraction) && RenderFraction(fraction) == text[i..FractionEnd(text, i)]
  {
    hide SkipDigits;
    fraction := [];
    if i < |text| && text[i] == DOT && DigitAt(text, i + 1) {
      SkippedAreDigits(text, i + 1);
      var end := SkipDigits(text, i + 1);
      fraction := text[i + 1..end];
      assert text[i..end] == [DOT] + fraction;
    }
  }

  lemma ReadExponent(text: Text, i: nat, whole: Number) returns (n: Number)
    requires i <= |text|
    ensures n == whole.(mark := n.mark, sign := n.sign, exponent := n.exponent)
    ensures Digits(n.exponent) && (n.mark.Some? ==> n.mark.value in {LOWER_E, UPPER_E} && |n.exponent| > 0)
    ensures n.sign.Some? ==> n.sign.value in {PLUS, MINUS}
    ensures RenderExponent(n) == text[i..ExponentEnd(text, i)]
  {
    hide SkipDigits;
    n := whole.(mark := None, sign := None, exponent := []);
    if ExponentEnd(text, i) != i {
      var signed := text[i + 1] in {PLUS, MINUS} && DigitAt(text, i + 2);
      var start := if signed then i + 2 else i + 1;
      SkippedAreDigits(text, start);
      var end := SkipDigits(text, start);
      n := whole.(mark := Some(text[i]), sign := if signed then Some(text[i + 1]) else None,
                  exponent := text[start..end]);
      assert text[i..end] == [text[i]] + (if signed then [text[i + 1]] else []) + text[start..end];
    }
  }

  lemma ReadNumber(text: Text, i: nat) returns (n: Number)
    requires i <= |text| && NumberEnd(text, i).Some?
    ensures NumberOk(n) && RenderNumber(n) == text[i..NumberEnd(text, i).value]
  {
    hide SkipDigits, FractionEnd, ExponentEnd, RenderFraction, RenderExponent;
    var minus := i < |text| && text[i] == MINUS;
    var a := if minus then i + 1 else i;
    SkippedAreDigits(text, a);
    var b := if text[a] == ZERO then a + 1 else SkipDigits(text, a);
    var f := FractionEnd(text, b);
    var e := ExponentEnd(text, f);
    var fraction := ReadFraction(text, b);
    n := ReadExponent(text, f, Number(minus, text[a..b], fraction, None, None, []));
    FourParts(text, i, a, b, f, e);
    assert text[i..a] == if minus then [MINUS] else [];
    assert RenderNumber(n) == text[i..a] + text[a..b] + text[b..f] + text[f..e];
  }

  lemma FourParts(text: Text, i: nat, a: nat, b: nat, f: nat, e: nat)
    requires i <= a <= b <= f <= e <= |text|
    ensures text[i..e] == text[i..a] + text[a..b] + text[b..f] + text[f..e]
  {
    assert text[i..b] == text[i..a] + text[a..b];
    assert text[i..f] == text[i..b] + text[b..f];
    assert text[i..e] == text[i..f] + text[f..e];
  }

  lemma ReadScalar(text: Text, i: nat)
    requires i <= |text| && ScalarEnd(text, i).Some?
    ensures IsScalar(text[i..ScalarEnd(text, i).value])
  {
    hide NumberEnd, NumberOk, RenderNumber;
    if NumberEnd(text, i).Some? {
      var n := ReadNumber(text, i);
      assert NumberOk(n) && RenderNumber(n) == text[i..NumberEnd(text, i).value];
    }
  }

  // ---------------------------------------------------------------------------
  // Values
  // ---------------------------------------------------------------------------

  /** The derivation of what has been read, with nothing behind it. */
  ghost predicate Derives(text: Text, i: nat, end: nat, p: Padded, v: Value) {
    && i <= end <= |text| && LoosePadded(p) && p.after == [] && RenderPadded(p) == text[i..end]
    && TreeOk(Bared(p.tree)) && Meaning(Bared(p.tree)) == v && Unique(v)
  }

  /** The same of what stands between brackets. */
  ghost predicate DerivesTree(text: Text, i: nat, end: nat, t: Tree, v: Value) {
    && i <= end <= |text| && Loose(t) && Render(t) == text[i..end]
    && TreeOk(Bared(t)) && Meaning(Bared(t)) == v && Unique(v)
  }

  lemma {:induction false} ReadsTree(text: Text, i: nat) returns (p: Padded)
    requires i <= |text| && ReadValue(text, i).At?
    ensures Derives(text, i, ReadValue(text, i).end, p, ReadValue(text, i).value)
    decreases |text| - i, 1
  {
    hide SkipBlanks, ReadString, ScalarEnd, ReadMembers, ReadItems, IsScalar, RenderPieces, Unescaped;
    var k := SkipBlanks(text, i);
    SkippedAreBlanks(text, i);
    var end, v := ReadValue(text, i).end, ReadValue(text, i).value;
    var tree: Tree;
    if k < |text| && text[k] == LEFT_BRACE {
      tree := ReadsObject(text, k, end, v);
    } else if k < |text| && text[k] == LEFT_BRACKET {
      tree := ReadsArray(text, k, end, v);
    } else if k < |text| && text[k] == QUOTE {
      tree := ReadsQuoted(text, k, end, v);
    } else {
      ReadScalar(text, k);
      tree := Scalar(text[k..end]);
      assert DerivesTree(text, k, end, tree, v);
    }
    p := Padded(text[i..k], tree, []);
    Behind(text, i, k, end, tree, v);
  }

  lemma Behind(text: Text, i: nat, k: nat, end: nat, t: Tree, v: Value)
    requires i <= k && DerivesTree(text, k, end, t, v) && Blanks(text[i..k])
    ensures Derives(text, i, end, Padded(text[i..k], t, []), v)
  {
    hide Render, Loose, TreeOk, Bared, Meaning, Unique, Blanks;
    assert Blanks([]) by {
      NoBlanks();
    }
    assert text[i..end] == text[i..k] + text[k..end] + [];
  }

  lemma NoBlanks()
    ensures Blanks([])
  {
  }

  lemma ReadsQuoted(text: Text, k: nat, end: nat, v: Value) returns (t: Tree)
    requires v.VString? && ReadString(text, k) == At(end, v.text)
    ensures DerivesTree(text, k, end, t, v)
  {
    hide ReadString, RenderPieces, Unescaped, RenderString;
    var ps := ReadPieces(text, k);
    t := Str(ps);
  }

  /** A text cut behind its first unit, or around one in its middle. */
  lemma Cut(text: Text, i: nat, k: nat, end: nat)
    requires i <= k < end <= |text|
    ensures i < k ==> text[i..end] == [text[i]] + text[i + 1..k] + text[k..end]
    ensures text[i..end] == text[i..k] + [text[k]] + text[k + 1..end]
    ensures text[i..k + 1] == text[i..k] + [text[k]]
  {
    assert i < k ==> text[i..k] == [text[i]] + text[i + 1..k];
    assert text[i..end] == text[i..k] + text[k..end];
  }

  lemma {:induction false} ReadsArray(text: Text, k: nat, end: nat, v: Value) returns (t: Tree)
    requires k < |text| && text[k] == LEFT_BRACKET && v.VArray?
    requires var m := SkipBlanks(text, k + 1);
      if m < |text| && text[m] == RIGHT_BRACKET then end == m + 1 && v.items == NoValue
      else ReadItems(text, m) == At(end, v.items)
    ensures DerivesTree(text, k, end, t, v)
    decreases |text| - k, 0
  {
    hide SkipBlanks, ReadItems, IsScalar, RenderItems, LooseItems, ItemsOk, ItemsMeaning;
    var m := SkipBlanks(text, k + 1);
    SkippedAreBlanks(text, k + 1);
    var pad := text[k + 1..m];
    if m < |text| && text[m] == RIGHT_BRACKET {
      t := EmptyArray(pad);
      Cut(text, k, m, end);
    } else {
      var items := ReadsItems(text, m);
      Cut(text, k, m, end);
      t := Bracketed(text[k..end], pad, items, v);
    }
  }

  lemma Bracketed(part: Text, pad: Text, items: Items, v: Value) returns (t: Tree)
    requires LooseItems(items) && Blanks(pad) && v.VArray?
    requires part == [LEFT_BRACKET] + pad + (RenderItems(items) + [RIGHT_BRACKET])
    requires ItemsOk(BaredItems(items)) && ItemsMeaning(BaredItems(items)) == v.items && UniqueItems(v.items)
    ensures Loose(t) && Render(t) == part && TreeOk(Bared(t)) && Meaning(Bared(t)) == v && Unique(v)
  {
    hide RenderItems, LooseItems, ItemsOk, BaredItems, ItemsMeaning, UniqueItems, PadItems, Blanks;
    t := Array(PadItems(pad, items));
    PaddedItems(pad, items);
    assert Render(t) == [LEFT_BRACKET] + (pad + RenderItems(items)) + [RIGHT_BRACKET];
  }

  lemma PadAfter(p: Padded, after: Text) returns (q: Padded)
    requires LoosePadded(p) && p.after == [] && Blanks(after)
    ensures LoosePadded(q) && RenderPadded(q) == RenderPadded(p) + after
    ensures BaredPadded(q).tree == Bared(p.tree) && PadOk(BaredPadded(q))
  {
    hide Render, Loose, Blanks;
    q := p.(after := after);
    BaredTree(p);
    BaredTree(q);
  }

  function PadItems(pad: Text, items: Items): Items {
    var item := items.item.(before := pad + items.item.before);
    match items
    case Last(_) => Last(item)
    case More(_, rest) => More(item, rest)
  }

  lemma PaddedItems(pad: Text, items: Items)
    requires Blanks(pad)
    ensures RenderItems(PadItems(pad, items)) == pad + RenderItems(items)
    ensures BaredItems(PadItems(pad, items)) == BaredItems(items)
    ensures LooseItems(items) ==> LooseItems(PadItems(pad, items))
  {
    hide Render, Blanks;
    var p := items.item;
    if LooseItems(items) {
      assert LoosePadded(p);
      BlanksConcat(pad, p.before);
    }
    assert RenderPadded(p.(before := pad + p.before)) == pad + RenderPadded(p);
  }

  lemma {:induction false} ReadsItems(text: Text, i: nat) returns (items: Items)
    requires i <= |text| && ReadItems(text, i).At?
    ensures var r := ReadItems(text, i);
      && LooseItems(items) && RenderItems(items) + [RIGHT_BRACKET] == text[i..r.end]
      && ItemsOk(BaredItems(items)) && ItemsMeaning(BaredItems(items)) == r.value && UniqueItems(r.value)
    decreases |text| - i, 2
  {
    hide SkipBlanks, ReadValue, IsScalar, Render, RenderPadded, LoosePadded, BaredPadded, Bared, Loose, TreeOk, Meaning,
         Unique, Blanks;
    var item := ReadValue(text, i);
    var p := ReadsTree(text, i);
    var k := SkipBlanks(text, item.end);
    SkippedAreBlanks(text, item.end);
    var padded := PadAfter(p, text[item.end..k]);
    assert text[i..k] == text[i..item.end] + text[item.end..k];
    if text[k] == RIGHT_BRACKET {
      items := Last(padded);
      Cut(text, i, k, k + 1);
    } else {
      var rest := ReadsItems(text, k + 1);
      items := More(padded, rest);
      Cut(text, i, k, ReadItems(text, i).end);
    }
  }

  lemma {:induction false} ReadsObject(text: Text, k: nat, end: nat, v: Value) returns (t: Tree)
    requires k < |text| && text[k] == LEFT_BRACE && v.VObject?
    requires var m := SkipBlanks(text, k + 1);
      if m < |text| && text[m] == RIGHT_BRACE then end == m + 1 && v.fields == NoField
      else ReadMembers(text, m, {}) == At(end, v.fields)
    ensures DerivesTree(text, k, end, t, v)
    decreases |text| - k, 0
  {
    hide SkipBlanks, ReadMembers, IsScalar, RenderMembers, LooseMembers, MembersOk, MembersMeaning;
    var m := SkipBlanks(text, k + 1);
    SkippedAreBlanks(text, k + 1);
    var pad := text[k + 1..m];
    if m < |text| && text[m] == RIGHT_BRACE {
      t := EmptyObject(pad);
      Cut(text, k, m, end);
    } else {
      var members := ReadsMembers(text, m, {});
      Cut(text, k, m, end);
      t := Braced(text[k..end], pad, members, v);
    }
  }

  lemma Braced(part: Text, pad: Text, members: Members, v: Value) returns (t: Tree)
    requires LooseMembers(members) && Blanks(pad) && v.VObject?
    requires part == [LEFT_BRACE] + pad + (RenderMembers(members) + [RIGHT_BRACE])
    requires MembersOk(BaredMembers(members)) && MembersMeaning(BaredMembers(members)) == v.fields
    requires UniqueFields(v.fields)
    ensures Loose(t) && Render(t) == part && TreeOk(Bared(t)) && Meaning(Bared(t)) == v && Unique(v)
  {
    hide RenderMembers, LooseMembers, MembersOk, BaredMembers, MembersMeaning, UniqueFields, PadMembers, Blanks;
    t := Object(PadMembers(pad, members));
    PaddedMembers(pad, members);
    assert Render(t) == [LEFT_BRACE] + (pad + RenderMembers(members)) + [RIGHT_BRACE];
  }

  function PadMembers(pad: Text, members: Members): Members {
    var member := members.member.(before := pad + members.member.before);
    match members
    case LastMember(_) => LastMember(member)
    case MoreMembers(_, rest) => MoreMembers(member, rest)
  }

  lemma PaddedMembers(pad: Text, members: Members)
    requires Blanks(pad)
    ensures RenderMembers(PadMembers(pad, members)) == pad + RenderMembers(members)
    ensures BaredMembers(PadMembers(pad, members)) == BaredMembers(members)
    ensures LooseMembers(members) ==> LooseMembers(PadMembers(pad, members))
  {
    hide Render, RenderString, Blanks;
    var m := members.member;
    if LooseMembers(members) {
      assert LooseMember(m);
      BlanksConcat(pad, m.before);
    }
    assert RenderMember(m.(before := pad + m.before)) == pad + RenderMember(m);
  }

  lemma {:induction false} ReadsMembers(text: Text, i: nat, seen: set<Text>) returns (members: Members)
    requires i <= |text| && ReadMembers(text, i, seen).At?
    ensures var r := ReadMembers(text, i, seen);
      && LooseMembers(members) && RenderMembers(members) + [RIGHT_BRACE] == text[i..r.end]
      && MembersOk(BaredMembers(members)) && MembersMeaning(BaredMembers(members)) == r.value
      && UniqueFields(r.value) && Names(r.value) !! seen
    decreases |text| - i, 3
  {
    hide SkipBlanks, ReadMember, IsScalar, Render, RenderMember, Bared, Loose, TreeOk, Meaning, Unique;
    var member := ReadMember(text, i, seen);
    var m := ReadsMember(text, i, seen);
    var k := SkipBlanks(text, member.end);
    SkippedAreBlanks(text, member.end);
    var padded := WithAfter(m, text[member.end..k]);
    assert RenderMember(padded) == text[i..k] by {
      assert text[i..k] == text[i..member.end] + text[member.end..k];
    }
    if text[k] == RIGHT_BRACE {
      members := LastMember(padded);
      Cut(text, i, k, k + 1);
    } else {
      var rest := ReadsMembers(text, k + 1, seen + {member.value.0});
      members := MoreMembers(padded, rest);
      Cut(text, i, k, ReadMembers(text, i, seen).end);
    }
  }

  lemma WithAfter(m: Member, after: Text) returns (n: Member)
    requires LooseMember(m) && m.value.after == [] && Blanks(after)
    ensures LooseMember(n) && RenderMember(n) == RenderMember(m) + after && BaredMember(n) == BaredMember(m)
  {
    hide Render, RenderString, Loose, Bared;
    n := m.(value := m.value.(after := after));
  }

  lemma {:induction false} ReadsMember(text: Text, i: nat, seen: set<Text>) returns (m: Member)
    requires i <= |text| && ReadMember(text, i, seen).At?
    ensures var r := ReadMember(text, i, seen);
      && LooseMember(m) && m.value.after == [] && RenderMember(m) == text[i..r.end]
      && NameOk(BaredMember(m)) && Unescaped(m.name) == r.value.0 && r.value.0 !in seen
      && TreeOk(Bared(m.value.tree)) && Meaning(Bared(m.value.tree)) == r.value.1 && Unique(r.value.1)
    decreases |text| - i, 2
  {
    hide SkipBlanks, ReadString, ReadValue, IsScalar, Render, RenderString, Bared, Loose, TreeOk, Meaning, Unique,
         Unescaped;
    var s := SkipBlanks(text, i);
    SkippedAreBlanks(text, i);
    var name := ReadString(text, s);
    var ps := ReadPieces(text, s);
    var k := SkipBlanks(text, name.end);
    SkippedAreBlanks(text, name.end);
    var p := ReadsTree(text, k + 1);
    var end := ReadMember(text, i, seen).end;
    m := Member(text[i..s], ps, text[name.end..k], p);
    assert text[i..end] == text[i..s] + text[s..name.end] + text[name.end..k] + [text[k]] + text[k + 1..end];
  }

  /**
   What the scanner accepts is a JSON text, but for white space: the derivation without its white space is one of the
   grammar, of the value read, and no object in it has two equal names.
   */
  lemma AcceptedIsJson(text: Text) returns (p: Padded)
    requires ReadText(text).At?
    ensures LoosePadded(p) && RenderPadded(p) == text
    ensures TreeOk(Bared(p.tree)) && Meaning(Bared(p.tree)) == ReadText(text).value && Unique(ReadText(text).value)
  {
    hide SkipBlanks, ReadValue, Render, Bared, Loose, TreeOk, Meaning, Unique;
    var r := ReadValue(text, 0);
    var q := ReadsTree(text, 0);
    SkippedAreBlanks(text, r.end);
    var rest := text[r.end..];
    assert rest == text[r.end..|text|];
    p := q.(after := rest);
    assert RenderPadded(p) == RenderPadded(q) + rest;
    assert text == text[0..r.end] + rest;
  }

  // ---------------------------------------------------------------------------
  // White space
  // ---------------------------------------------------------------------------

  /** A JSON text of the grammar. */
  ghost predicate IsJson(text: Text) { exists p: Padded :: PadOk(p) && TreeOk(p.tree) && RenderPadded(p) == text }

  /** Every unit that the scanner takes for white space is so for JSON. */
  predicate Plainly(text: Text) { forall i :: 0 <= i < |text| && IsBlank(text[i]) ==> IsSpace(text[i]) }

  lemma PlainParts(a: Text, b: Text)
    requires Plainly(a + b)
    ensures Plainly(a) && Plainly(b)
  {
    assert forall i :: 0 <= i < |a| ==> a[i] == (a + b)[i];
    assert forall i :: 0 <= i < |b| ==> b[i] == (a + b)[|a| + i];
  }

  lemma PlainBlanks(t: Text)
    requires Blanks(t) && Plainly(t)
    ensures Spaces(t)
  {
  }

  lemma PlainPadded(p: Padded)
    requires Plainly(RenderPadded(p))
    ensures Plainly(p.before) && Plainly(Render(p.tree)) && Plainly(p.after)
  {
    hide Plainly, Render;
    PlainParts(p.before + Render(p.tree), p.after);
    PlainParts(p.before, Render(p.tree));
  }

  lemma {:induction false} StrictTree(t: Tree)
    requires Loose(t) && Plainly(Render(t)) && TreeOk(Bared(t))
    ensures TreeOk(t) && Meaning(t) == Meaning(Bared(t))
    decreases t
  {
    hide Plainly, IsScalar, Unescaped, RenderPieces;
    match t {
      case EmptyArray(pad) =>
        assert [LEFT_BRACKET] + (pad + [RIGHT_BRACKET]) == Render(t);
        PlainParts([LEFT_BRACKET], pad + [RIGHT_BRACKET]);
        PlainParts(pad, [RIGHT_BRACKET]);
        PlainBlanks(pad);
      case Array(items) =>
        assert [LEFT_BRACKET] + (RenderItems(items) + [RIGHT_BRACKET]) == Render(t);
        PlainParts([LEFT_BRACKET], RenderItems(items) + [RIGHT_BRACKET]);
        PlainParts(RenderItems(items), [RIGHT_BRACKET]);
        StrictItems(items);
      case EmptyObject(pad) =>
        assert [LEFT_BRACE] + (pad + [RIGHT_BRACE]) == Render(t);
        PlainParts([LEFT_BRACE], pad + [RIGHT_BRACE]);
        PlainParts(pad, [RIGHT_BRACE]);
        PlainBlanks(pad);
      case Object(members) =>
        assert [LEFT_BRACE] + (RenderMembers(members) + [RIGHT_BRACE]) == Render(t);
        PlainParts([LEFT_BRACE], RenderMembers(members) + [RIGHT_BRACE]);
        PlainParts(RenderMembers(members), [RIGHT_BRACE]);
        StrictMembers(members);
      case _ =>
    }
  }

  lemma {:induction false} StrictPadded(p: Padded)
    requires LoosePadded(p) && Plainly(RenderPadded(p)) && TreeOk(Bared(p.tree))
    ensures PadOk(p) && TreeOk(p.tree) && Meaning(p.tree) == Meaning(Bared(p.tree))
    decreases p
  {
    hide Plainly, IsScalar, Unescaped, RenderPieces;
    PlainPadded(p);
    PlainBlanks(p.before);
    PlainBlanks(p.after);
    StrictTree(p.tree);
  }

  lemma {:induction false} StrictItems(items: Items)
    requires LooseItems(items) && Plainly(RenderItems(items)) && ItemsOk(BaredItems(items))
    ensures ItemsOk(items) && ItemsMeaning(items) == ItemsMeaning(BaredItems(items))
    decreases items
  {
    hide Plainly, IsScalar, Unescaped, RenderPieces;
    if items.More? {
      PlainParts(RenderPadded(items.item) + [COMMA], RenderItems(items.rest));
      PlainParts(RenderPadded(items.item), [COMMA]);
      StrictItems(items.rest);
    }
    StrictPadded(items.item);
  }

  lemma {:induction false} StrictMembers(members: Members)
    requires LooseMembers(members) && Plainly(RenderMembers(members)) && MembersOk(BaredMembers(members))
    ensures MembersOk(members) && MembersMeaning(members) == MembersMeaning(BaredMembers(members))
    decreases members
  {
    hide Plainly, IsScalar, Unescaped, RenderPieces, RenderMember;
    BaredFirst(members);
    if members.MoreMembers? {
      PlainParts(RenderMember(members.member) + [COMMA], RenderMembers(members.rest));
      PlainParts(RenderMember(members.member), [COMMA]);
      StrictMembers(members.rest);
    }
    StrictMember(members.member);
  }

  lemma BaredMemberTree(m: Member)
    ensures BaredMember(m).value.tree == Bared(m.value.tree) && BaredMember(m).name == m.name
  {
    BaredTree(m.value);
  }

  lemma BaredTree(p: Padded)
    ensures BaredPadded(p).tree == Bared(p.tree)
  {
  }

  lemma BaredFirst(members: Members)
    requires MembersOk(BaredMembers(members))
    ensures PiecesOk(members.member.name) && TreeOk(Bared(members.member.value.tree))
    ensures members.MoreMembers? ==> MembersOk(BaredMembers(members.rest))
    ensures MembersMeaning(BaredMembers(members)) ==
      Field(Unescaped(members.member.name), Meaning(Bared(members.member.value.tree)),
            if members.MoreMembers? then MembersMeaning(BaredMembers(members.rest)) else NoField)
  {
    hide IsScalar, Unescaped;
    var bared := BaredMembers(members);
    assert bared.member == BaredMember(members.member);
    BaredMemberTree(members.member);
    assert MembersOk(bared) && NameOk(bared.member) && TreeOk(bared.member.value.tree);
    assert bared.MoreMembers? <==> members.MoreMembers?;
    if members.MoreMembers? {
      assert bared.rest == BaredMembers(members.rest);
    }
  }

  lemma {:induction false} StrictMember(m: Member)
    requires LooseMember(m) && Plainly(RenderMember(m)) && TreeOk(Bared(m.value.tree))
    ensures NameOk(m) && TreeOk(m.value.tree) && Meaning(m.value.tree) == Meaning(Bared(m.value.tree))
    decreases m
  {
    hide Plainly, IsScalar, Unescaped, RenderPieces, RenderString, RenderPadded;
    PlainParts(m.before + RenderString(m.name) + m.middle + [COLON], RenderPadded(m.value));
    PlainParts(m.before + RenderString(m.name) + m.middle, [COLON]);
    PlainParts(m.before + RenderString(m.name), m.middle);
    PlainParts(m.before, RenderString(m.name));
    PlainBlanks(m.before);
    PlainBlanks(m.middle);
    StrictPadded(m.value);
  }

  /** The scanner takes every JSON text, and but for white space that JSON does not know, nothing else. */
  lemma AcceptsExactly(text: Text)
    ensures IsJson(text) ==> ReadText(text) != Bad
    ensures Plainly(text) && ReadText(text).At? ==> IsJson(text)
  {
    hide ReadText, Render, Loose, TreeOk, Meaning, Bared, Unique, Plainly;
    if Plainly(text) && ReadText(text).At? {
      var p := AcceptedIsJson(text);
      StrictPadded(p);
    }
    if IsJson(text) {
      var p: Padded :| PadOk(p) && TreeOk(p.tree) && RenderPadded(p) == text;
      ReadsText(p);
    }
  }

  /** The scanner alone takes a no-break space for white space, which JSON does not. */
  lemma WiderWhiteSpace()
    ensures ReadText([0xA0, ZERO]).At? && !IsJson([0xA0, ZERO])
  {
    var text := [0xA0, ZERO];
    ScansBlank(text);
    JsonStarts(text);
  }

  /** A JSON text starts with its own white space, or with none. */
  lemma JsonStarts(text: Text)
    ensures IsJson(text) ==> text != [] && (IsBlank(text[0]) ==> IsSpace(text[0]))
  {
    if IsJson(text) {
      var p: Padded :| PadOk(p) && TreeOk(p.tree) && RenderPadded(p) == text;
      FirstUnit(p.tree);
      assert text[0] == if p.before != [] then p.before[0] else Render(p.tree)[0];
    }
  }

  lemma ScansBlank(text: Text)
    requires text == [0xA0, ZERO]
    ensures ReadText(text).At?
  {
    assert SkipBlanks(text, 1) == 1;
    assert SkipBlanks(text, 0) == 1;
    assert SkipDigits(text, 2) == 2;
    assert FractionEnd(text, 2) == 2 && ExponentEnd(text, 2) == 2;
    assert NumberEnd(text, 1) == Some(2);
    assert ReadValue(text, 0) == At(2, VScalar(text[1..2]));
    assert SkipBlanks(text, 2) == 2;
  }
}
