/**
 The hand-written scanner that refuses JSON texts with duplicate keys: what it finds at a position,
 the scanner itself as a class with a moving index, and what it does on every JSON text.
 */
module JsonScan {
  import opened Common
  import opened JsonGrammar

  /** The scanner's own notion of white space: the \s of a regular expression. */
  predicate IsBlank(u: Unit) {
    || 9 <= u <= 13 || u == SPACE || u == 0xA0 || u == 0x1680 || 0x2000 <= u <= 0x200A
    || u == 0x2028 || u == 0x2029 || u == 0x202F || u == 0x205F || u == 0x3000 || u == 0xFEFF
  }

  function SkipBlanks(text: Text, i: nat): (r: nat)
    requires i <= |text|
    ensures i <= r <= |text|
    ensures r < |text| ==> !IsBlank(text[r])
    decreases |text| - i
  {
    if i < |text| && IsBlank(text[i]) then SkipBlanks(text, i + 1) else i
  }

  /** Where the string whose opening quote is before `i` ends; an escaped u skips its four digits unread. */
  function StringEnd(text: Text, i: nat): (r: Option<nat>)
    ensures r.Some? ==> i < r.value <= |text|
    decreases |text| - i
  {
    if i >= |text| then None
    else if text[i] == QUOTE then Some(i + 1)
    else if text[i] == BACKSLASH then
      if i + 1 < |text| && text[i + 1] == LOWER_U then StringEnd(text, i + 6) else StringEnd(text, i + 2)
    else StringEnd(text, i + 1)
  }

  /** JSON.parse of the string's contents between `i` and `stop`: None if they are malformed. */
  function Unquote(text: Text, i: nat, stop: nat): Option<Text>
    requires i <= stop <= |text|
    decreases stop - i
  {
    if i == stop then Some([])
    else if IsPlain(text[i]) then Prepend(text[i], Unquote(text, i + 1, stop))
    else if text[i] == BACKSLASH && i + 1 < stop && IsShort(text[i + 1])
    then Prepend(ShortValue(text[i + 1]), Unquote(text, i + 2, stop))
    else if text[i] == BACKSLASH && i + 5 < stop && text[i + 1] == LOWER_U && PieceOk(HexAt(text, i))
    then Prepend(PieceValue(HexAt(text, i)), Unquote(text, i + 6, stop))
    else None
  }

  function HexAt(text: Text, i: nat): Piece
    requires i + 5 < |text|
  {
    Hex(text[i + 2], text[i + 3], text[i + 4], text[i + 5])
  }

  function Prepend(u: Unit, rest: Option<Text>): Option<Text> {
    if rest.Some? then Some([u] + rest.value) else None
  }

  function SkipDigits(text: Text, i: nat): (r: nat)
    requires i <= |text|
    ensures i <= r <= |text|
    ensures r < |text| ==> !IsDigit(text[r])
    decreases |text| - i
  {
    if i < |text| && IsDigit(text[i]) then SkipDigits(text, i + 1) else i
  }

  predicate DigitAt(text: Text, i: nat) { i < |text| && IsDigit(text[i]) }

  /** The optional fraction and exponent of the scanner's regular expression. */
  function FractionEnd(text: Text, i: nat): (r: nat)
    requires i <= |text|
    ensures i <= r <= |text|
  {
    if i < |text| && text[i] == DOT && DigitAt(text, i + 1) then SkipDigits(text, i + 1) else i
  }

  function ExponentEnd(text: Text, i: nat): (r: nat)
    requires i <= |text|
    ensures i <= r <= |text|
  {
    if i < |text| && text[i] in {LOWER_E, UPPER_E} then
      if i + 1 < |text| && text[i + 1] in {PLUS, MINUS} && DigitAt(text, i + 2) then SkipDigits(text, i + 2)
      else if DigitAt(text, i + 1) then SkipDigits(text, i + 1)
      else i
    else i
  }

  function NumberEnd(text: Text, i: nat): (r: Option<nat>)
    requires i <= |text|
    ensures r.Some? ==> i < r.value <= |text|
  {
    var a := if i < |text| && text[i] == MINUS then i + 1 else i;
    if !DigitAt(text, a) then None
    else
      var b := if text[a] == ZERO then a + 1 else SkipDigits(text, a);
      Some(ExponentEnd(text, FractionEnd(text, b)))
  }

  predicate StartsAt(text: Text, i: nat, word: Text) { i + |word| <= |text| && text[i..i + |word|] == word }

  function ScalarEnd(text: Text, i: nat): (r: Option<nat>)
    requires i <= |text|
    ensures r.Some? ==> i < r.value <= |text|
  {
    var number := NumberEnd(text, i);
    if number.Some? then number
    else if StartsAt(text, i, TRUE) then Some(i + 4)
    else if StartsAt(text, i, FALSE) then Some(i + 5)
    else if StartsAt(text, i, NULL) then Some(i + 4)
    else None
  }

  /** What is found: something that ends before `end`, the first repeated name, or no JSON. */
  datatype Seen<T> = At(end: nat, value: T) | Duplicate | Bad

  function Onward<T, U>(seen: Seen<T>): Seen<U>
    requires !seen.At?
  {
    if seen.Duplicate? then Duplicate else Bad
  }

  function ReadString(text: Text, i: nat): (r: Seen<Text>)
    ensures r.At? ==> i < r.end <= |text|
    ensures !r.Duplicate?
  {
    if i >= |text| || text[i] != QUOTE then Bad
    else
      var end := StringEnd(text, i + 1);
      if end.None? then Bad
      else
        var name := Unquote(text, i + 1, end.value - 1);
        if name.None? then Bad else At(end.value, name.value)
  }

  function ReadValue(text: Text, i: nat): (r: Seen<Value>)
    requires i <= |text|
    ensures r.At? ==> i < r.end <= |text|
    decreases |text| - i, 0
  {
    var k := SkipBlanks(text, i);
    if k < |text| && text[k] == LEFT_BRACE then
      var k := SkipBlanks(text, k + 1);
      if k < |text| && text[k] == RIGHT_BRACE then At(k + 1, VObject(NoField))
      else
        var r := ReadMembers(text, k, {});
        if r.At? then At(r.end, VObject(r.value)) else Onward(r)
    else if k < |text| && text[k] == LEFT_BRACKET then
      var k := SkipBlanks(text, k + 1);
      if k < |text| && text[k] == RIGHT_BRACKET then At(k + 1, VArray(NoValue))
      else
        var r := ReadItems(text, k);
        if r.At? then At(r.end, VArray(r.value)) else Onward(r)
    else if k < |text| && text[k] == QUOTE then
      var r := ReadString(text, k);
      if r.At? then At(r.end, VString(r.value)) else Onward(r)
    else
      var end := ScalarEnd(text, k);
      if end.Some? then At(end.value, VScalar(text[k..end.value])) else Bad
  }

  /** The turns of the array loop from `i` on. */
  function ReadItems(text: Text, i: nat): (r: Seen<Values>)
    requires i <= |text|
    ensures r.At? ==> i < r.end <= |text|
    decreases |text| - i, 2
  {
    if i == |text| then Bad
    else
      var item := ReadValue(text, i);
      if !item.At? then Onward(item)
      else
        var k := SkipBlanks(text, item.end);
        if k == |text| then Bad
        else if text[k] == RIGHT_BRACKET then At(k + 1, Cons(item.value, NoValue))
        else if text[k] != COMMA then Bad
        else
          var rest := ReadItems(text, k + 1);
          if rest.At? then At(rest.end, Cons(item.value, rest.value)) else rest
  }

  /** One member of an object, whose name must not be among those already seen. */
  function ReadMember(text: Text, i: nat, seen: set<Text>): (r: Seen<(Text, Value)>)
    requires i <= |text|
    ensures r.At? ==> i < r.end <= |text|
    decreases |text| - i, 1
  {
    var name := ReadString(text, SkipBlanks(text, i));
    if !name.At? then Bad
    else if name.value in seen then Duplicate
    else
      var k := SkipBlanks(text, name.end);
      if k == |text| || text[k] != COLON then Bad
      else
        var value := ReadValue(text, k + 1);
        if value.At? then At(value.end, (name.value, value.value)) else Onward(value)
  }

  /** The turns of the object loop from `i` on. */
  function ReadMembers(text: Text, i: nat, seen: set<Text>): (r: Seen<Fields>)
    requires i <= |text|
    ensures r.At? ==> i < r.end <= |text|
    decreases |text| - i, 2
  {
    if i == |text| then Bad
    else
      var member := ReadMember(text, i, seen);
      if !member.At? then Onward(member)
      else
        var k := SkipBlanks(text, member.end);
        var (name, value) := member.value;
        if k == |text| then Bad
        else if text[k] == RIGHT_BRACE then At(k + 1, Field(name, value, NoField))
        else if text[k] != COMMA then Bad
        else
          var rest := ReadMembers(text, k + 1, seen + {name});
          if rest.At? then At(rest.end, Field(name, value, rest.value)) else rest
  }

  /** The whole text: one value, and nothing but white space after it. */
  function ReadText(text: Text): (r: Seen<Value>)
    ensures r.At? ==> r.end == |text|
  {
    var r := ReadValue(text, 0);
    if !r.At? then r
    else
      var k := SkipBlanks(text, r.end);
      if k == |text| then At(k, r.value) else Bad
  }

  // ---------------------------------------------------------------------------
  // The scanner
  // ---------------------------------------------------------------------------

  datatype Verdict = Fine | DuplicateKey | InvalidJson

  function VerdictOf<T>(seen: Seen<T>): Verdict {
    match seen
    case At(_, _) => Fine
    case Duplicate => DuplicateKey
    case Bad => InvalidJson
  }

  predicate Stands<T>(seen: Seen<T>, verdict: Verdict, index: nat) {
    verdict == VerdictOf(seen) && (seen.At? ==> index == seen.end)
  }

  class Scanner {
    const text: Text
    var index: nat

    constructor (text: Text)
      ensures this.text == text && index == 0
    {
      this.text := text;
      index := 0;
    }

    method SkipWhitespace()
      requires index <= |text|
      modifies this
      ensures index == SkipBlanks(text, old(index))
    {
      while index < |text| && IsBlank(text[index])
        invariant index <= |text|
        invariant SkipBlanks(text, old(index)) == SkipBlanks(text, index)
      {
        index := index + 1;
      }
    }

    method ParseString() returns (verdict: Verdict, name: Text)
      modifies this
      ensures verdict == VerdictOf(ReadString(text, old(index)))
      ensures verdict == Fine ==> ReadString(text, old(index)) == At(index, name)
    {
      if index >= |text| || text[index] != QUOTE {
        return InvalidJson, [];
      }
      var start := index;
      index := index + 1;
      while index < |text|
        invariant start < index && StringEnd(text, start + 1) == StringEnd(text, index)
        decreases |text| - index
      {
        var u := text[index];
        if u == QUOTE {
          index := index + 1;
          var unquoted := Unquote(text, start + 1, index - 1);
          if unquoted.None? {
            return InvalidJson, [];
          }
          return Fine, unquoted.value;
        }
        if u == BACKSLASH {
          index := index + 1;
          if index < |text| && text[index] == LOWER_U {
            index := index + 4;
          }
        }
        index := index + 1;
      }
      return InvalidJson, [];
    }

    method ParseValue() returns (verdict: Verdict)
      requires index <= |text|
      modifies this
      ensures Stands(ReadValue(text, old(index)), verdict, index)
      decreases |text| - index, 0
    {
      hide ReadMembers, ReadItems, ReadString, ScalarEnd, SkipBlanks;
      SkipWhitespace();
      if index < |text| && text[index] == LEFT_BRACE {
        index := index + 1;
        SkipWhitespace();
        if index < |text| && text[index] == RIGHT_BRACE {
          index := index + 1;
          return Fine;
        }
        verdict := ParseMembers();
      } else if index < |text| && text[index] == LEFT_BRACKET {
        index := index + 1;
        SkipWhitespace();
        if index < |text| && text[index] == RIGHT_BRACKET {
          index := index + 1;
          return Fine;
        }
        verdict := ParseItems();
      } else if index < |text| && text[index] == QUOTE {
        var name;
        verdict, name := ParseString();
      } else {
        var end := ScalarEnd(text, index);
        if end.None? {
          return InvalidJson;
        }
        index := end.value;
        return Fine;
      }
    }

    /** The array loop. */
    method ParseItems() returns (verdict: Verdict)
      requires index <= |text|
      modifies this
      ensures Stands(ReadItems(text, old(index)), verdict, index)
      decreases |text| - index, 1
    {
      hide ReadValue, SkipBlanks;
      ghost var first := ReadItems(text, index);
      while index < |text|
        invariant old(index) <= index <= |text|
        invariant VerdictOf(first) == VerdictOf(ReadItems(text, index))
        invariant first.At? ==> first.end == ReadItems(text, index).end
        decreases |text| - index
      {
        verdict := ParseValue();
        if verdict != Fine {
          return;
        }
        SkipWhitespace();
        if index < |text| && text[index] == RIGHT_BRACKET {
          index := index + 1;
          return Fine;
        }
        if index >= |text| || text[index] != COMMA {
          return InvalidJson;
        }
        index := index + 1;
      }
      return InvalidJson;
    }

    method ParseMember(names: set<Text>) returns (verdict: Verdict, name: Text)
      requires index <= |text|
      modifies this
      ensures Stands(ReadMember(text, old(index), names), verdict, index)
      ensures verdict == Fine ==> name == ReadMember(text, old(index), names).value.0
      decreases |text| - index, 1
    {
      hide ReadValue, SkipBlanks, ReadString;
      SkipWhitespace();
      verdict, name := ParseString();
      if verdict != Fine {
        return;
      }
      if name in names {
        return DuplicateKey, name;
      }
      SkipWhitespace();
      if index >= |text| || text[index] != COLON {
        return InvalidJson, name;
      }
      index := index + 1;
      verdict := ParseValue();
    }

    /** The object loop. */
    method ParseMembers() returns (verdict: Verdict)
      requires index <= |text|
      modifies this
      ensures Stands(ReadMembers(text, old(index), {}), verdict, index)
      decreases |text| - index, 2
    {
      hide ReadMember, SkipBlanks;
      var names: set<Text> := {};
      ghost var first := ReadMembers(text, index, {});
      while index < |text|
        invariant old(index) <= index <= |text|
        invariant VerdictOf(first) == VerdictOf(ReadMembers(text, index, names))
        invariant first.At? ==> first.end == ReadMembers(text, index, names).end
        decreases |text| - index
      {
        var name;
        verdict, name := ParseMember(names);
        if verdict != Fine {
          return;
        }
        names := names + {name};
        SkipWhitespace();
        if index < |text| && text[index] == RIGHT_BRACE {
          index := index + 1;
          return Fine;
        }
        if index >= |text| || text[index] != COMMA {
          return InvalidJson;
        }
        index := index + 1;
      }
      return InvalidJson;
    }

    /** assertNoDuplicateJsonKeys. */
    method Check() returns (verdict: Verdict)
      requires index == 0
      modifies this
      ensures Stands(ReadText(text), verdict, index)
    {
      hide ReadValue, SkipBlanks;
      verdict := ParseValue();
      if verdict != Fine {
        return;
      }
      SkipWhitespace();
      return if index == |text| then Fine else InvalidJson;
    }
  }
}
