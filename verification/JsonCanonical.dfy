/**
 The canonical form of a JSON value: object keys sorted by code unit, no white space, strings quoted as
 JSON.stringify quotes them. A number is known by its lexeme.
 */
module JsonCanonical {
  import opened Common
  import opened JsonGrammar
  import opened JsonScan
  import opened JsonTexts

  // ---------------------------------------------------------------------------
  // Quoting
  // ---------------------------------------------------------------------------

  function HexDigit(v: nat): (u: Unit)
    requires v < 16
    ensures IsHex(u) && HexValue(u) == v && (IsDigit(u) || u >= 97)
  {
    if v < 10 then 48 + v else 87 + v
  }

  function HexPiece(u: Unit): (p: Piece)
    ensures PieceOk(p) && PieceValue(p) == u
  {
    var a := u / 16;
    var b := a / 16;
    Hex(HexDigit(b / 16), HexDigit(b % 16), HexDigit(a % 16), HexDigit(u % 16))
  }

  predicate IsHigh(u: Unit) { 0xD800 <= u <= 0xDBFF }

  predicate IsLow(u: Unit) { 0xDC00 <= u <= 0xDFFF }

  /** A surrogate that is not half of a pair. */
  predicate IsLone(s: Text, i: nat)
    requires i < |s|
  {
    || (IsHigh(s[i]) && !(i + 1 < |s| && IsLow(s[i + 1])))
    || (IsLow(s[i]) && !(i > 0 && IsHigh(s[i - 1])))
  }

  function QuotedUnit(s: Text, i: nat): (p: Piece)
    requires i < |s|
    ensures PieceOk(p) && PieceValue(p) == s[i]
  {
    var u := s[i];
    if u == QUOTE || u == BACKSLASH then Short(u)
    else if u == 8 then Short(LOWER_B)
    else if u == 12 then Short(LOWER_F)
    else if u == LINE_FEED then Short(LOWER_N)
    else if u == RETURN then Short(LOWER_R)
    else if u == TAB then Short(LOWER_T)
    else if u < 0x20 || IsLone(s, i) then HexPiece(u)
    else Plain(u)
  }

  function Quoted(s: Text, i: nat): (ps: seq<Piece>)
    requires i <= |s|
    ensures PiecesOk(ps) && Unescaped(ps) == s[i..]
    decreases |s| - i
  {
    if i == |s| then [] else [QuotedUnit(s, i)] + Quoted(s, i + 1)
  }

  // ---------------------------------------------------------------------------
  // Sorting
  // ---------------------------------------------------------------------------

  predicate Less(a: Text, b: Text) {
    if a == [] then b != []
    else if b == [] then false
    else if a[0] != b[0] then a[0] < b[0]
    else Less(a[1..], b[1..])
  }

  lemma {:induction false} LessIsTotal(a: Text, b: Text)
    ensures Less(a, b) || Less(b, a) <==> a != b
    ensures !(Less(a, b) && Less(b, a))
  {
    if a != [] && b != [] && a[0] == b[0] {
      LessIsTotal(a[1..], b[1..]);
      assert a == [a[0]] + a[1..] && b == [b[0]] + b[1..];
    }
  }

  lemma {:induction false} LessIsTransitive(a: Text, b: Text, c: Text)
    requires Less(a, b) && Less(b, c)
    ensures Less(a, c)
  {
    if a != [] && a[0] == b[0] == c[0] {
      LessIsTransitive(a[1..], b[1..], c[1..]);
    }
  }

  predicate Sorted(fields: Fields) {
    match fields
    case NoField => true
    case Field(name, _, rest) => (forall n :: n in Names(rest) ==> Less(name, n)) && Sorted(rest)
  }

  function Insert(name: Text, value: Value, fields: Fields): Fields {
    match fields
    case NoField => Field(name, value, NoField)
    case Field(n, v, rest) =>
      if Less(name, n) then Field(name, value, fields) else Field(n, v, Insert(name, value, rest))
  }

  /** The value with the keys of every object sorted. */
  function Normalize(v: Value): Value {
    match v
    case VArray(items) => VArray(NormalizeItems(items))
    case VObject(fields) => VObject(NormalizeFields(fields))
    case _ => v
  }

  function NormalizeItems(items: Values): Values {
    match items
    case NoValue => NoValue
    case Cons(value, rest) => Cons(Normalize(value), NormalizeItems(rest))
  }

  function NormalizeFields(fields: Fields): Fields {
    match fields
    case NoField => NoField
    case Field(name, value, rest) => Insert(name, Normalize(value), NormalizeFields(rest))
  }

  // ---------------------------------------------------------------------------
  // Printing
  // ---------------------------------------------------------------------------

  function Bare(t: Tree): Padded { Padded([], t, []) }

  /** The derivation of the text without white space. */
  function TreeOf(v: Value): Tree {
    match v
    case VScalar(text) => Scalar(text)
    case VString(text) => Str(Quoted(text, 0))
    case VArray(items) => if items == NoValue then EmptyArray([]) else Array(ItemsOf(items))
    case VObject(fields) => if fields == NoField then EmptyObject([]) else Object(MembersOf(fields))
  }

  function ItemsOf(items: Values): Items
    requires items != NoValue
  {
    var item := Bare(TreeOf(items.value));
    if items.rest == NoValue then Last(item) else More(item, ItemsOf(items.rest))
  }

  function MembersOf(fields: Fields): Members
    requires fields != NoField
  {
    var m := Member([], Quoted(fields.name, 0), [], Bare(TreeOf(fields.value)));
    if fields.rest == NoField then LastMember(m) else MoreMembers(m, MembersOf(fields.rest))
  }

  function CanonicalJson(v: Value): Text { Render(TreeOf(Normalize(v))) }

  /** A value that JSON can express: its scalars are lexemes and its objects have distinct keys. */
  ghost predicate Proper(v: Value) {
    match v
    case VScalar(text) => IsScalar(text)
    case VString(_) => true
    case VArray(items) => ProperItems(items)
    case VObject(fields) => ProperFields(fields)
  }

  ghost predicate ProperItems(items: Values) {
    items.Cons? ==> Proper(items.value) && ProperItems(items.rest)
  }

  ghost predicate ProperFields(fields: Fields) {
    fields.Field? ==> fields.name !in Names(fields.rest) && Proper(fields.value) && ProperFields(fields.rest)
  }

  lemma {:induction false} TreeMeans(v: Value)
    requires Proper(v)
    ensures TreeOk(TreeOf(v)) && Meaning(TreeOf(v)) == v && Unique(v)
    decreases v
  {
    match v {
      case VArray(items) => if items != NoValue { ItemsMean(items); }
      case VObject(fields) => if fields != NoField { MembersMean(fields); }
      case VString(text) => assert text[0..] == text;
      case _ =>
    }
  }

  lemma {:induction false} ItemsMean(items: Values)
    requires ProperItems(items) && items != NoValue
    ensures ItemsOk(ItemsOf(items)) && ItemsMeaning(ItemsOf(items)) == items && UniqueItems(items)
    decreases items
  {
    TreeMeans(items.value);
    if items.rest != NoValue {
      ItemsMean(items.rest);
    }
  }

  lemma {:induction false} MembersMean(fields: Fields)
    requires ProperFields(fields) && fields != NoField
    ensures MembersOk(MembersOf(fields)) && MembersMeaning(MembersOf(fields)) == fields && UniqueFields(fields)
    decreases fields
  {
    assert fields.name[0..] == fields.name;
    TreeMeans(fields.value);
    if fields.rest != NoField {
      MembersMean(fields.rest);
    }
  }

  // ---------------------------------------------------------------------------
  // Normal forms
  // ---------------------------------------------------------------------------

  function Lookup(fields: Fields, name: Text): Value
    requires name in Names(fields)
  {
    if fields.name == name then fields.value else Lookup(fields.rest, name)
  }

  lemma {:induction false} InsertFacts(name: Text, value: Value, fields: Fields)
    requires Sorted(fields) && ProperFields(fields) && name !in Names(fields) && Proper(value)
    ensures var r := Insert(name, value, fields);
      && Sorted(r) && ProperFields(r) && Names(r) == {name} + Names(fields)
      && Lookup(r, name) == value
      && forall n :: n in Names(fields) ==> Lookup(r, n) == Lookup(fields, n)
    decreases fields
  {
    if fields.Field? {
      LessIsTotal(name, fields.name);
      if Less(name, fields.name) {
        forall n | n in Names(fields.rest) ensures Less(name, n) {
          LessIsTransitive(name, fields.name, n);
        }
      } else {
        InsertFacts(name, value, fields.rest);
      }
    }
  }

  lemma {:induction false} NormalProper(v: Value)
    requires Proper(v)
    ensures Proper(Normalize(v))
    decreases v
  {
    match v {
      case VArray(items) => ItemsProper(items);
      case VObject(fields) => FieldsFacts(fields);
      case _ =>
    }
  }

  lemma {:induction false} ItemsProper(items: Values)
    requires ProperItems(items)
    ensures ProperItems(NormalizeItems(items))
    decreases items
  {
    if items.Cons? {
      NormalProper(items.value);
      ItemsProper(items.rest);
    }
  }

  lemma {:induction false} FieldsFacts(fields: Fields)
    requires ProperFields(fields)
    ensures var r := NormalizeFields(fields);
      && Sorted(r) && ProperFields(r) && Names(r) == Names(fields)
      && forall n :: n in Names(fields) ==> Lookup(r, n) == Normalize(Lookup(fields, n))
    decreases fields
  {
    if fields.Field? {
      NormalProper(fields.value);
      FieldsFacts(fields.rest);
      InsertFacts(fields.name, Normalize(fields.value), NormalizeFields(fields.rest));
    }
  }

  /** Canonical text is accepted by the scanner, and reads back as the value with its keys sorted. */
  lemma CanonicalReadsBack(v: Value)
    requires Proper(v)
    ensures ReadText(CanonicalJson(v)) == At(|CanonicalJson(v)|, Normalize(v))
  {
    hide Render, ReadText, TreeOf, Normalize, Proper, Unique, TreeOk, Meaning;
    NormalProper(v);
    TreeMeans(Normalize(v));
    var p := Bare(TreeOf(Normalize(v)));
    assert RenderPadded(p) == Render(p.tree);
    ReadsText(p);
  }

  // ---------------------------------------------------------------------------
  // Equality up to key order
  // ---------------------------------------------------------------------------

  /** Equal but for the order of object keys. */
  predicate Alike(v: Value, w: Value) {
    match v
    case VArray(items) => w.VArray? && AlikeItems(items, w.items)
    case VObject(fields) => w.VObject? && Names(w.fields) == Names(fields) && AlikeFields(fields, w.fields)
    case _ => v == w
  }

  predicate AlikeItems(a: Values, b: Values) {
    if a.NoValue? then b.NoValue?
    else b.Cons? && Alike(a.value, b.value) && AlikeItems(a.rest, b.rest)
  }

  /** Every field of `a` has a counterpart in `b`. */
  predicate AlikeFields(a: Fields, b: Fields) {
    a.Field? ==> a.name in Names(b) && Alike(a.value, Lookup(b, a.name)) && AlikeFields(a.rest, b)
  }

  lemma {:induction false} SortedAreEqual(a: Fields, b: Fields)
    requires Sorted(a) && Sorted(b) && Names(a) == Names(b) && ProperFields(a) && ProperFields(b)
    requires forall n :: n in Names(a) ==> Lookup(a, n) == Lookup(b, n)
    ensures a == b
    decreases a
  {
    if a.Field? {
      assert a.name in Names(b) && b.Field?;
      assert b.name in Names(a);
      LessIsTotal(a.name, b.name);
      assert a.name == b.name;
      assert Names(a.rest) == Names(a) - {a.name} && Names(b.rest) == Names(b) - {b.name};
      forall n | n in Names(a.rest) ensures Lookup(a.rest, n) == Lookup(b.rest, n) {
        assert Lookup(a, n) == Lookup(b, n);
      }
      SortedAreEqual(a.rest, b.rest);
    }
  }

  lemma {:induction false} NormalAlike(v: Value, w: Value)
    requires Proper(v) && Proper(w)
    ensures Normalize(v) == Normalize(w) <==> Alike(v, w)
    decreases v
  {
    match v {
      case VArray(items) =>
        if w.VArray? {
          ItemsAlike(items, w.items);
        }
      case VObject(fields) =>
        if w.VObject? {
          FieldsFacts(fields);
          FieldsFacts(w.fields);
          if Names(fields) == Names(w.fields) {
            FieldsAlike(fields, w.fields);
            var a, b := NormalizeFields(fields), NormalizeFields(w.fields);
            if AlikeFields(fields, w.fields) {
              SortedAreEqual(a, b);
            }
          }
        }
      case _ =>
    }
  }

  lemma {:induction false} ItemsAlike(a: Values, b: Values)
    requires ProperItems(a) && ProperItems(b)
    ensures NormalizeItems(a) == NormalizeItems(b) <==> AlikeItems(a, b)
    decreases a
  {
    if a.Cons? && b.Cons? {
      NormalAlike(a.value, b.value);
      ItemsAlike(a.rest, b.rest);
    }
  }

  lemma {:induction false} FieldsAlike(a: Fields, b: Fields)
    requires ProperFields(a) && ProperFields(b) && Names(a) <= Names(b)
    ensures AlikeFields(a, b) <==> forall n :: n in Names(a) ==> Normalize(Lookup(a, n)) == Normalize(Lookup(b, n))
    decreases a
  {
    if a.Field? {
      LookupProper(b, a.name);
      NormalAlike(a.value, Lookup(b, a.name));
      FieldsAlike(a.rest, b);
      assert Lookup(a, a.name) == a.value;
      assert forall n :: n in Names(a.rest) ==> Lookup(a, n) == Lookup(a.rest, n);
    }
  }

  lemma {:induction false} LookupProper(fields: Fields, name: Text)
    requires ProperFields(fields) && name in Names(fields)
    ensures Proper(Lookup(fields, name))
    decreases fields
  {
    if fields.name != name {
      LookupProper(fields.rest, name);
    }
  }

  /** Two values print alike exactly when they are equal up to the order of their keys. */
  lemma CanonicalIsInjective(v: Value, w: Value)
    requires Proper(v) && Proper(w)
    ensures CanonicalJson(v) == CanonicalJson(w) <==> Alike(v, w)
  {
    hide ReadText, Proper, Alike, Normalize;
    CanonicalReadsBack(v);
    CanonicalReadsBack(w);
    NormalAlike(v, w);
  }

  /** Every value among the fields is as sorting leaves it. */
  predicate Settled(fields: Fields) {
    fields.Field? ==> Normalize(fields.value) == fields.value && Settled(fields.rest)
  }

  lemma {:induction false} InsertSettled(name: Text, value: Value, fields: Fields)
    requires Settled(fields) && Normalize(value) == value
    ensures Settled(Insert(name, value, fields))
  {
    if fields.Field? {
      InsertSettled(name, value, fields.rest);
    }
  }

  /** Sorted fields stay as they are. */
  lemma {:induction false} SortedStay(fields: Fields)
    requires Sorted(fields) && Settled(fields)
    ensures NormalizeFields(fields) == fields
  {
    if fields.Field? {
      SortedStay(fields.rest);
      if fields.rest.Field? {
        assert fields.rest.name in Names(fields.rest);
      }
    }
  }

  /** Sorting the keys once is enough. */
  lemma {:induction false} NormalizeTwice(v: Value)
    requires Proper(v)
    ensures Normalize(Normalize(v)) == Normalize(v)
    decreases v
  {
    match v {
      case VArray(items) => ItemsTwice(items);
      case VObject(fields) =>
        FieldsSettled(fields);
        FieldsFacts(fields);
        SortedStay(NormalizeFields(fields));
      case _ =>
    }
  }

  lemma {:induction false} ItemsTwice(items: Values)
    requires ProperItems(items)
    ensures NormalizeItems(NormalizeItems(items)) == NormalizeItems(items)
    decreases items
  {
    if items.Cons? {
      NormalizeTwice(items.value);
      ItemsTwice(items.rest);
    }
  }

  lemma {:induction false} FieldsSettled(fields: Fields)
    requires ProperFields(fields)
    ensures Settled(NormalizeFields(fields))
    decreases fields
  {
    if fields.Field? {
      NormalizeTwice(fields.value);
      FieldsSettled(fields.rest);
      InsertSettled(fields.name, Normalize(fields.value), NormalizeFields(fields.rest));
    }
  }
}
