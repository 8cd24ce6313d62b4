/**
 What canonical text looks like: in every object the keys ascend, and no text of the same value is shorter.
 */
module CanonicalForm {
  import opened Common
  import opened JsonGrammar
  import opened JsonTexts
  import opened JsonCanonical
  import opened Utf8

  // ---------------------------------------------------------------------------
  // Order
  // ---------------------------------------------------------------------------

  /** `a` and `b` agree before `i`, where `a` ends or has the smaller code unit. */
  predicate DifferAt(a: Text, b: Text, i: nat) {
    && i <= |a| && i < |b|
    && (forall k :: 0 <= k < i ==> a[k] == b[k])
    && (i < |a| ==> a[i] < b[i])
  }

  predicate Before(a: Text, b: Text) { exists i: nat :: i <= |a| && DifferAt(a, b, i) }

  /** In every object, of two names that follow each other the earlier comes before the later. */
  ghost predicate Ascending(v: Value) {
    match v
    case VArray(items) => AscendingItems(items)
    case VObject(fields) => AscendingFields(fields)
    case _ => true
  }

  ghost predicate AscendingItems(items: Values) {
    items.Cons? ==> Ascending(items.value) && AscendingItems(items.rest)
  }

  ghost predicate AscendingFields(fields: Fields) {
    fields.Field? ==>
      && Ascending(fields.value) && AscendingFields(fields.rest)
      && (fields.rest.Field? ==> Before(fields.name, fields.rest.name))
  }

  lemma {:induction false} LessIsBefore(a: Text, b: Text)
    ensures Less(a, b) <==> Before(a, b)
  {
    if a == [] {
      if b != [] {
        assert DifferAt(a, b, 0);
      }
    } else if b != [] {
      if a[0] != b[0] {
        FirstDiffers(a, b);
      } else {
        LessIsBefore(a[1..], b[1..]);
        SameFirst(a, b);
      }
    }
  }

  lemma FirstDiffers(a: Text, b: Text)
    requires a != [] && b != [] && a[0] != b[0]
    ensures a[0] < b[0] <==> Before(a, b)
  {
    if a[0] < b[0] {
      assert DifferAt(a, b, 0);
    }
  }

  lemma SameFirst(a: Text, b: Text)
    requires a != [] && b != [] && a[0] == b[0]
    ensures Before(a[1..], b[1..]) <==> Before(a, b)
  {
    if Before(a[1..], b[1..]) {
      var i: nat :| i <= |a[1..]| && DifferAt(a[1..], b[1..], i);
      assert forall k :: 0 < k < i + 1 ==> a[k] == a[1..][k - 1] && b[k] == b[1..][k - 1];
      assert DifferAt(a, b, i + 1);
    }
    if Before(a, b) {
      var i: nat :| i <= |a| && DifferAt(a, b, i);
      assert i > 0;
      assert DifferAt(a[1..], b[1..], i - 1);
    }
  }

  lemma {:induction false} NormalAscends(v: Value)
    requires Proper(v)
    ensures Ascending(Normalize(v))
    decreases v
  {
    match v {
      case VArray(items) => ItemsAscend(items);
      case VObject(fields) => FieldsAscend(fields);
      case _ =>
    }
  }

  lemma {:induction false} ItemsAscend(items: Values)
    requires ProperItems(items)
    ensures AscendingItems(NormalizeItems(items))
    decreases items
  {
    if items.Cons? {
      NormalAscends(items.value);
      ItemsAscend(items.rest);
    }
  }

  lemma {:induction false} FieldsAscend(fields: Fields)
    requires ProperFields(fields)
    ensures AscendingFields(NormalizeFields(fields))
    decreases fields
  {
    if fields.Field? {
      FieldsAscend(fields.rest);
      NormalAscends(fields.value);
      FieldsFacts(fields.rest);
      InsertAscends(fields.name, Normalize(fields.value), NormalizeFields(fields.rest));
    }
  }

  lemma {:induction false} InsertAscends(name: Text, value: Value, fields: Fields)
    requires AscendingFields(fields) && Ascending(value) && name !in Names(fields)
    ensures AscendingFields(Insert(name, value, fields))
    ensures Insert(name, value, fields).Field?
    ensures Insert(name, value, fields).name in {name} + Names(fields)
    ensures Insert(name, value, fields).name == if fields.NoField? || Less(name, fields.name) then name else fields.name
    decreases fields
  {
    if fields.Field? {
      LessIsTotal(name, fields.name);
      LessIsBefore(name, fields.name);
      LessIsBefore(fields.name, name);
      if !Less(name, fields.name) {
        InsertAscends(name, value, fields.rest);
      }
    }
  }

  /** However canonical text is read, its value is the one that was printed, and in every object the keys ascend. */
  lemma KeysAscend(v: Value, p: Padded)
    requires Proper(v) && PadOk(p) && TreeOk(p.tree) && RenderPadded(p) == CanonicalJson(v)
    ensures Meaning(p.tree) == Normalize(v) && Ascending(Meaning(p.tree))
  {
    hide Proper, Normalize, Ascending, Render, Meaning, TreeOk, TreeOf, Unique;
    NormalProper(v);
    NormalAscends(v);
    TreeMeans(Normalize(v));
    var q := Bare(TreeOf(Normalize(v)));
    assert RenderPadded(q) == Render(q.tree);
    TextsAreUnambiguous(q, p);
  }

  // ---------------------------------------------------------------------------
  // Length
  // ---------------------------------------------------------------------------

  /** Every string of the text has its surrogates in pairs, or escaped. */
  ghost predicate WellFormed(t: Tree) {
    match t
    case Str(pieces) => Paired(RenderPieces(pieces))
    case Array(items) => WellFormedItems(items)
    case Object(members) => WellFormedMembers(members)
    case _ => true
  }

  ghost predicate WellFormedItems(items: Items) {
    WellFormed(items.item.tree) && (items.More? ==> WellFormedItems(items.rest))
  }

  ghost predicate WellFormedMembers(members: Members) {
    && Paired(RenderPieces(members.member.name)) && WellFormed(members.member.value.tree)
    && (members.MoreMembers? ==> WellFormedMembers(members.rest))
  }

  /** The pieces that are surrogates as they stand come in pairs. */
  predicate PairsUp(ps: seq<Piece>) {
    if ps == [] then true
    else if ps[0].Plain? && IsHigh(ps[0].u) then
      |ps| >= 2 && ps[1].Plain? && IsLow(ps[1].u) && PairsUp(ps[2..])
    else !(ps[0].Plain? && IsLow(ps[0].u)) && PairsUp(ps[1..])
  }

  lemma {:induction false} PairedPieces(ps: seq<Piece>)
    requires PiecesOk(ps) && Paired(RenderPieces(ps))
    ensures PairsUp(ps)
    decreases |ps|
  {
    hide PieceValue, PieceOk;
    if ps != [] {
      var first, rest := RenderPiece(ps[0]), RenderPieces(ps[1..]);
      if ps[0].Plain? && IsHigh(ps[0].u) {
        StartsWithLow(ps[1..], first + rest);
        assert (first + rest)[2..] == RenderPieces(ps[1..][1..]);
        assert ps[1..][1..] == ps[2..];
        PairedPieces(ps[2..]);
      } else {
        AfterUnpaired(ps[0], rest);
        PairedPieces(ps[1..]);
      }
    }
  }

  /** Only a piece that stands for itself starts with a surrogate. */
  lemma StartsWithLow(ps: seq<Piece>, text: Text)
    requires PiecesOk(ps) && |text| == 1 + |RenderPieces(ps)| && text[1..] == RenderPieces(ps) && StartsPair(text)
    ensures |ps| >= 1 && ps[0].Plain? && IsLow(ps[0].u) && RenderPieces(ps) == [ps[0].u] + RenderPieces(ps[1..])
  {
    hide PieceValue, PieceOk;
    assert text[1] == text[1..][0];
  }

  lemma AfterUnpaired(p: Piece, rest: Text)
    requires PieceOk(p) && !(p.Plain? && IsHigh(p.u)) && Paired(RenderPiece(p) + rest)
    ensures Paired(rest) && !(p.Plain? && IsLow(p.u))
  {
    hide PieceValue;
    PieceIsUnpaired(p);
    DropUnpaired(RenderPiece(p), rest);
  }

  lemma PieceIsUnpaired(p: Piece)
    requires PieceOk(p)
    ensures (p.Plain? ==> RenderPiece(p) == [p.u]) && (!p.Plain? ==> Unpaired(RenderPiece(p)))
  {
  }

  lemma {:induction false} DropUnpaired(a: Text, b: Text)
    requires Paired(a + b) && (forall k :: 0 <= k < |a| ==> !IsHigh(a[k]))
    ensures Paired(b) && Unpaired(a)
  {
    if a == [] {
      assert a + b == b;
    } else {
      assert (a + b)[0] == a[0] && (a + b)[1..] == a[1..] + b;
      DropUnpaired(a[1..], b);
      assert forall k :: 0 < k < |a| ==> a[k] == a[1..][k - 1];
    }
  }

  /** No string is shorter than the canonical one. */
  lemma {:induction false} QuotedIsShortest(text: Text, i: nat, ps: seq<Piece>)
    requires i <= |text| && PiecesOk(ps) && Unescaped(ps) == text[i..] && PairsUp(ps)
    ensures |RenderPieces(Quoted(text, i))| <= |RenderPieces(ps)|
    decreases |ps|
  {
    hide QuotedUnit, RenderPiece, PieceOk, PieceValue, Quoted;
    if ps == [] {
      assert i == |text|;
      NothingQuoted(text);
    } else {
      FirstPiece(text, i, ps);
      if ps[0].Plain? && IsHigh(ps[0].u) {
        FirstPiece(text, i + 1, ps[1..]);
        assert ps[1..][1..] == ps[2..];
        PairIsPlain(text, i);
        QuotedIsShortest(text, i + 2, ps[2..]);
      } else {
        QuotedUnfolds(text, i);
        PieceIsNoShorter(text, i, ps[0]);
        QuotedIsShortest(text, i + 1, ps[1..]);
      }
    }
  }

  lemma NothingQuoted(text: Text)
    ensures RenderPieces(Quoted(text, |text|)) == []
  {
  }

  lemma FirstPiece(text: Text, i: nat, ps: seq<Piece>)
    requires i <= |text| && PiecesOk(ps) && Unescaped(ps) == text[i..] && ps != []
    ensures i < |text| && PieceValue(ps[0]) == text[i] && Unescaped(ps[1..]) == text[i + 1..]
    ensures |RenderPieces(ps)| == |RenderPiece(ps[0])| + |RenderPieces(ps[1..])|
    ensures ps[0].Plain? ==> text[i] == ps[0].u && |RenderPiece(ps[0])| == 1
  {
    assert text[i] == Unescaped(ps)[0];
    assert text[i + 1..] == text[i..][1..] == Unescaped(ps)[1..];
  }

  lemma PieceIsNoShorter(text: Text, i: nat, p: Piece)
    requires i < |text| && PieceOk(p) && PieceValue(p) == text[i]
    requires !(p.Plain? && (IsHigh(p.u) || IsLow(p.u)))
    ensures |RenderPiece(QuotedUnit(text, i))| <= |RenderPiece(p)|
  {
  }

  /** The tree of the value, in the same order, however it is written. */
  lemma {:induction false} TreeIsShortest(v: Value, t: Tree)
    requires TreeOk(t) && Meaning(t) == v && WellFormed(t)
    ensures |Render(TreeOf(v))| <= |Render(t)|
    decreases t
  {
    hide Quoted, RenderPieces, Unescaped, PairsUp, IsScalar;
    match t {
      case Str(pieces) => StringIsShortest(v.text, pieces);
      case Array(items) => ItemsAreShortest(v.items, items);
      case Object(members) => MembersAreShortest(v.fields, members);
      case _ =>
    }
  }

  lemma StringIsShortest(text: Text, ps: seq<Piece>)
    requires PiecesOk(ps) && Unescaped(ps) == text && Paired(RenderPieces(ps))
    ensures |RenderString(Quoted(text, 0))| <= |RenderString(ps)|
  {
    hide Quoted, RenderPieces, Unescaped, PairsUp;
    PairedPieces(ps);
    assert text[0..] == text;
    QuotedIsShortest(text, 0, ps);
  }

  lemma {:induction false} ItemsAreShortest(values: Values, items: Items)
    requires ItemsOk(items) && ItemsMeaning(items) == values && WellFormedItems(items) && values.Cons?
    ensures |RenderItems(ItemsOf(values))| <= |RenderItems(items)|
    decreases items
  {
    hide Quoted, RenderPieces, Unescaped, PairsUp, IsScalar;
    TreeIsShortest(values.value, items.item.tree);
    if items.More? {
      ItemsAreShortest(values.rest, items.rest);
    }
  }

  lemma MemberLength(m: Member)
    ensures |RenderMember(m)| ==
      |m.before| + |RenderString(m.name)| + |m.middle| + 1 + |m.value.before| + |Render(m.value.tree)| + |m.value.after|
  {
    hide RenderString, Render;
  }

  lemma {:induction false} MembersAreShortest(fields: Fields, members: Members)
    requires MembersOk(members) && MembersMeaning(members) == fields && WellFormedMembers(members) && fields.Field?
    ensures |RenderMembers(MembersOf(fields))| <= |RenderMembers(members)|
    decreases members
  {
    hide Quoted, RenderPieces, RenderString, Unescaped, PairsUp, IsScalar, Render, TreeOf;
    StringIsShortest(fields.name, members.member.name);
    TreeIsShortest(fields.value, members.member.value.tree);
    MemberLength(members.member);
    MemberLength(Member([], Quoted(fields.name, 0), [], Bare(TreeOf(fields.value))));
    if members.MoreMembers? {
      MembersAreShortest(fields.rest, members.rest);
    }
  }

  /** No text that has the sorted value, and its surrogates in pairs or escaped, is shorter than the canonical one. */
  lemma NoneIsShorter(v: Value, p: Padded)
    requires Proper(v) && PadOk(p) && TreeOk(p.tree) && Meaning(p.tree) == Normalize(v) && WellFormed(p.tree)
    ensures |CanonicalJson(v)| <= |RenderPadded(p)|
  {
    hide Render, Meaning, TreeOk, TreeOf, WellFormed;
    TreeIsShortest(Normalize(v), p.tree);
  }
}
