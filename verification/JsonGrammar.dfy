/**
 JSON texts as RFC 8259 defines them (sections 2 to 7), over UTF-16 code units. A tree is a derivation
 in the grammar, white space and escapes included; Render gives its text and Meaning its value.
 */
module JsonGrammar {
  import opened Common

  type Unit = n: nat | n < 0x10000

  type Text = seq<Unit>

  const TAB: Unit := 9
  const LINE_FEED: Unit := 10
  const RETURN: Unit := 13
  const SPACE: Unit := 32
  const QUOTE: Unit := 34
  const PLUS: Unit := 43
  const COMMA: Unit := 44
  const MINUS: Unit := 45
  const DOT: Unit := 46
  const SLASH: Unit := 47
  const ZERO: Unit := 48
  const NINE: Unit := 57
  const COLON: Unit := 58
  const UPPER_E: Unit := 69
  const LEFT_BRACKET: Unit := 91
  const BACKSLASH: Unit := 92
  const RIGHT_BRACKET: Unit := 93
  const LOWER_B: Unit := 98
  const LOWER_E: Unit := 101
  const LOWER_F: Unit := 102
  const LOWER_N: Unit := 110
  const LOWER_R: Unit := 114
  const LOWER_T: Unit := 116
  const LOWER_U: Unit := 117
  const LEFT_BRACE: Unit := 123
  const RIGHT_BRACE: Unit := 125

  const TRUE: Text := [116, 114, 117, 101]
  const FALSE: Text := [102, 97, 108, 115, 101]
  const NULL: Text := [110, 117, 108, 108]

  /** Insignificant white space. */
  predicate IsSpace(u: Unit) { u == TAB || u == LINE_FEED || u == RETURN || u == SPACE }

  predicate Spaces(t: Text) { forall i :: 0 <= i < |t| ==> IsSpace(t[i]) }

  predicate IsDigit(u: Unit) { ZERO <= u <= NINE }

  predicate Digits(t: Text) { forall i :: 0 <= i < |t| ==> IsDigit(t[i]) }

  predicate IsHex(u: Unit) { IsDigit(u) || 65 <= u <= 70 || 97 <= u <= 102 }

  function HexValue(u: Unit): (v: nat)
    requires IsHex(u)
    ensures v < 16
  {
    if IsDigit(u) then u - 48 else if u <= 70 then u - 55 else u - 87
  }

  // ---------------------------------------------------------------------------
  // Strings
  // ---------------------------------------------------------------------------

  datatype Piece = Plain(u: Unit) | Short(e: Unit) | Hex(a: Unit, b: Unit, c: Unit, d: Unit)

  predicate IsPlain(u: Unit) { u >= 0x20 && u != QUOTE && u != BACKSLASH }

  predicate IsShort(e: Unit) {
    e in {QUOTE, BACKSLASH, SLASH, LOWER_B, LOWER_F, LOWER_N, LOWER_R, LOWER_T}
  }

  predicate PieceOk(p: Piece) {
    match p
    case Plain(u) => IsPlain(u)
    case Short(e) => IsShort(e)
    case Hex(a, b, c, d) => IsHex(a) && IsHex(b) && IsHex(c) && IsHex(d)
  }

  predicate PiecesOk(ps: seq<Piece>) { forall i :: 0 <= i < |ps| ==> PieceOk(ps[i]) }

  function RenderPiece(p: Piece): Text {
    match p
    case Plain(u) => [u]
    case Short(e) => [BACKSLASH, e]
    case Hex(a, b, c, d) => [BACKSLASH, LOWER_U, a, b, c, d]
  }

  function ShortValue(e: Unit): Unit {
    if e == LOWER_B then 8
    else if e == LOWER_F then 12
    else if e == LOWER_N then LINE_FEED
    else if e == LOWER_R then RETURN
    else if e == LOWER_T then TAB
    else e
  }

  /** The code unit a piece stands for. */
  function PieceValue(p: Piece): Unit
    requires PieceOk(p)
  {
    match p
    case Plain(u) => u
    case Short(e) => ShortValue(e)
    case Hex(a, b, c, d) => ((HexValue(a) * 16 + HexValue(b)) * 16 + HexValue(c)) * 16 + HexValue(d)
  }

  function RenderPieces(ps: seq<Piece>): Text {
    if ps == [] then [] else RenderPiece(ps[0]) + RenderPieces(ps[1..])
  }

  function RenderString(ps: seq<Piece>): Text { [QUOTE] + RenderPieces(ps) + [QUOTE] }

  /** The unescaped string. */
  function Unescaped(ps: seq<Piece>): Text
    requires PiecesOk(ps)
  {
    if ps == [] then [] else [PieceValue(ps[0])] + Unescaped(ps[1..])
  }

  // ---------------------------------------------------------------------------
  // Scalars
  // ---------------------------------------------------------------------------

  /** fraction and exponent are empty where they are absent; sign is the sign of the exponent, if written. */
  datatype Number = Number(minus: bool, whole: Text, fraction: Text, mark: Option<Unit>, sign: Option<Unit>,
    exponent: Text)

  predicate NumberOk(n: Number) {
    && |n.whole| > 0 && Digits(n.whole) && (n.whole[0] == ZERO ==> |n.whole| == 1)
    && Digits(n.fraction) && Digits(n.exponent)
    && (n.mark.Some? ==> n.mark.value in {LOWER_E, UPPER_E} && |n.exponent| > 0)
    && (n.sign.Some? ==> n.sign.value in {PLUS, MINUS})
  }

  function RenderFraction(fraction: Text): Text { if fraction == [] then [] else [DOT] + fraction }

  function RenderExponent(n: Number): Text {
    if n.mark.None? then []
    else [n.mark.value] + (if n.sign.Some? then [n.sign.value] else []) + n.exponent
  }

  function RenderNumber(n: Number): Text {
    (if n.minus then [MINUS] else []) + n.whole + RenderFraction(n.fraction) + RenderExponent(n)
  }

  ghost predicate IsScalar(t: Text) {
    t == TRUE || t == FALSE || t == NULL || exists n: Number :: NumberOk(n) && RenderNumber(n) == t
  }

  // ---------------------------------------------------------------------------
  // Values
  // ---------------------------------------------------------------------------

  datatype Tree =
    | Scalar(text: Text)
    | Str(pieces: seq<Piece>)
    | EmptyArray(pad: Text)
    | Array(items: Items)
    | EmptyObject(pad: Text)
    | Object(members: Members)

  datatype Padded = Padded(before: Text, tree: Tree, after: Text)

  datatype Items = Last(item: Padded) | More(item: Padded, rest: Items)

  datatype Members = LastMember(member: Member) | MoreMembers(member: Member, rest: Members)

  datatype Member = Member(before: Text, name: seq<Piece>, middle: Text, value: Padded)

  ghost predicate TreeOk(t: Tree) {
    match t
    case Scalar(text) => IsScalar(text)
    case Str(pieces) => PiecesOk(pieces)
    case EmptyArray(pad) => Spaces(pad)
    case Array(items) => ItemsOk(items)
    case EmptyObject(pad) => Spaces(pad)
    case Object(members) => MembersOk(members)
  }

  predicate PadOk(p: Padded) { Spaces(p.before) && Spaces(p.after) }

  predicate NameOk(m: Member) { Spaces(m.before) && PiecesOk(m.name) && Spaces(m.middle) && PadOk(m.value) }

  ghost predicate ItemsOk(items: Items) {
    PadOk(items.item) && TreeOk(items.item.tree) && (items.More? ==> ItemsOk(items.rest))
  }

  ghost predicate MembersOk(members: Members) {
    && NameOk(members.member) && TreeOk(members.member.value.tree)
    && (members.MoreMembers? ==> MembersOk(members.rest))
  }

  function Render(t: Tree): Text {
    match t
    case Scalar(text) => text
    case Str(pieces) => RenderString(pieces)
    case EmptyArray(pad) => [LEFT_BRACKET] + pad + [RIGHT_BRACKET]
    case Array(items) => [LEFT_BRACKET] + RenderItems(items) + [RIGHT_BRACKET]
    case EmptyObject(pad) => [LEFT_BRACE] + pad + [RIGHT_BRACE]
    case Object(members) => [LEFT_BRACE] + RenderMembers(members) + [RIGHT_BRACE]
  }

  function RenderPadded(p: Padded): Text { p.before + Render(p.tree) + p.after }

  function RenderItems(items: Items): Text {
    match items
    case Last(item) => RenderPadded(item)
    case More(item, rest) => RenderPadded(item) + [COMMA] + RenderItems(rest)
  }

  function RenderMember(m: Member): Text {
    m.before + RenderString(m.name) + m.middle + [COLON] + RenderPadded(m.value)
  }

  function RenderMembers(members: Members): Text {
    match members
    case LastMember(m) => RenderMember(m)
    case MoreMembers(m, rest) => RenderMember(m) + [COMMA] + RenderMembers(rest)
  }

  /** A scalar is known by its lexeme; the fields of an object keep their order. */
  datatype Value = VScalar(text: Text) | VString(text: Text) | VArray(items: Values) | VObject(fields: Fields)

  datatype Values = NoValue | Cons(value: Value, rest: Values)

  datatype Fields = NoField | Field(name: Text, value: Value, rest: Fields)

  ghost function Meaning(t: Tree): Value
    requires TreeOk(t)
  {
    match t
    case Scalar(text) => VScalar(text)
    case Str(pieces) => VString(Unescaped(pieces))
    case EmptyArray(_) => VArray(NoValue)
    case Array(items) => VArray(ItemsMeaning(items))
    case EmptyObject(_) => VObject(NoField)
    case Object(members) => VObject(MembersMeaning(members))
  }

  ghost function ItemsMeaning(items: Items): Values
    requires ItemsOk(items)
  {
    match items
    case Last(item) => Cons(Meaning(item.tree), NoValue)
    case More(item, rest) => Cons(Meaning(item.tree), ItemsMeaning(rest))
  }

  ghost function MembersMeaning(members: Members): Fields
    requires MembersOk(members)
  {
    match members
    case LastMember(m) => Field(Unescaped(m.name), Meaning(m.value.tree), NoField)
    case MoreMembers(m, rest) => Field(Unescaped(m.name), Meaning(m.value.tree), MembersMeaning(rest))
  }

  function Names(fields: Fields): set<Text> {
    match fields
    case NoField => {}
    case Field(name, _, rest) => {name} + Names(rest)
  }

  /** No object anywhere in the value has two fields of the same name. */
  predicate Unique(v: Value) {
    match v
    case VArray(items) => UniqueItems(items)
    case VObject(fields) => UniqueFields(fields)
    case _ => true
  }

  predicate UniqueItems(items: Values) {
    match items
    case NoValue => true
    case Cons(value, rest) => Unique(value) && UniqueItems(rest)
  }

  predicate UniqueFields(fields: Fields) {
    match fields
    case NoField => true
    case Field(name, value, rest) => name !in Names(rest) && Unique(value) && UniqueFields(rest)
  }
}
