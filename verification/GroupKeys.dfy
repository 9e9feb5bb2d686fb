/**
 How a device's storage entries name their group (mls-crypto/src/lib.rs), and
 why deleting one group removes that group's entries and no others. Storage
 keys are byte strings; each byte is written as the character of that code.
 */
module GroupKeys {
  import opened Bits

  type GroupId = seq<Byte>

  // ---------------------------------------------------------------- the encoding

  const PREFIX := "{\"value\":{\"vec\":["
  const SUFFIX := "]}}"

  function Digit(d: nat): char
    requires d < 10
  {
    ('0' as int + d) as char
  }

  predicate IsDigit(c: char) {
    '0' <= c <= '9'
  }

  function Decimal(b: Byte): string {
    if b < 10 then [Digit(b)] else Decimal(b / 10) + [Digit(b % 10)]
  }

  function Body(id: GroupId): string {
    if id == [] then "" else if |id| == 1 then Decimal(id[0]) else Decimal(id[0]) + "," + Body(id[1..])
  }

  /** The JSON text of a group id, as the storage provider writes it. */
  function Encode(id: GroupId): string {
    PREFIX + Body(id) + SUFFIX
  }

  /** contains_subslice: the needles here are never empty. */
  predicate Contains(haystack: string, needle: string) {
    exists i | 0 <= i <= |haystack| :: Occurs(haystack, needle, i)
  }

  predicate Occurs(haystack: string, needle: string, i: nat) {
    i + |needle| <= |haystack| && haystack[i..i + |needle|] == needle
  }

  predicate AllDigits(s: string) {
    forall i | 0 <= i < |s| :: IsDigit(s[i])
  }

  function DigitsValue(s: string): nat
    requires AllDigits(s)
  {
    if s == "" then 0 else 10 * DigitsValue(s[..|s| - 1]) + (s[|s| - 1] as int - '0' as int)
  }

  lemma {:induction false} DecimalDigits(b: Byte)
    ensures |Decimal(b)| >= 1 && AllDigits(Decimal(b))
  {
    if b >= 10 { DecimalDigits(b / 10); }
  }

  lemma {:induction false} DecimalValue(b: Byte)
    ensures AllDigits(Decimal(b)) && DigitsValue(Decimal(b)) == b
  {
    DecimalDigits(b);
    if b >= 10 {
      DecimalValue(b / 10);
      assert Decimal(b)[..|Decimal(b)| - 1] == Decimal(b / 10);
    }
  }

  /** The shortest digits: no leading zero, so each byte has one way to be written. */
  lemma {:induction false} DecimalIsShortest(b: Byte)
    ensures |Decimal(b)| > 1 ==> Decimal(b)[0] != '0'
    ensures Decimal(b)[0] == '0' ==> b == 0
  {
    if b >= 10 {
      DecimalDigits(b / 10);
      DecimalIsShortest(b / 10);
      assert Decimal(b)[0] == Decimal(b / 10)[0];
    }
  }

  /** The text of an id, byte for byte. */
  lemma EncodesAsJson()
    ensures Encode([]) == "{\"value\":{\"vec\":[]}}"
    ensures Encode([103]) == "{\"value\":{\"vec\":[103]}}"
    ensures Encode([7, 20]) == "{\"value\":{\"vec\":[7,20]}}"
  {
    DecimalText();
    hide Decimal;
    assert Body([]) == "" && Body([103]) == "103" && [7, 20][1..] == [20] && Body([20]) == "20";
    assert "7" + "," + "20" == "7,20" && Body([7, 20]) == "7,20";
  }

  lemma DecimalText()
    ensures Decimal(7) == "7" && Decimal(20) == "20" && Decimal(103) == "103"
  {
    assert Decimal(2) == "2" && Decimal(1) == "1" && Decimal(10) == "1" + "0" == "10" && Decimal(20) == "2" + "0" == "20";
    assert Decimal(103) == "10" + "3" == "103";
  }

  predicate EndsNumber(s: string) {
    s != "" && !IsDigit(s[0])
  }

  /** How many digits a text starts with. */
  function Digits(s: string): nat {
    if s == "" || !IsDigit(s[0]) then 0 else 1 + Digits(s[1..])
  }

  lemma {:induction false} DigitsOf(number: string, after: string)
    requires AllDigits(number) && EndsNumber(after)
    ensures Digits(number + after) == |number|
  {
    if number != "" {
      DigitsOf(number[1..], after);
      assert (number + after)[1..] == number[1..] + after;
    } else {
      assert number + after == after;
    }
  }

  /** A number is read to its first non-digit, so equal texts hold equal numbers. */
  lemma FirstNumber(a: Byte, afterA: string, b: Byte, afterB: string, tail: string)
    requires EndsNumber(afterA) && EndsNumber(afterB)
    requires Decimal(a) + afterA <= (Decimal(b) + afterB) + tail
    ensures a == b && afterA <= afterB + tail
  {
    DecimalValue(a);
    DecimalValue(b);
    hide Decimal, Digits, AllDigits;
    var text := Decimal(b) + (afterB + tail);
    assert text == (Decimal(b) + afterB) + tail;
    var unread := text[|Decimal(a) + afterA|..];
    assert text == (Decimal(a) + afterA) + unread == Decimal(a) + (afterA + unread);
    DigitsOf(Decimal(a), afterA + unread);
    DigitsOf(Decimal(b), afterB + tail);
    assert Decimal(a) == text[..|Decimal(a)|] == Decimal(b);
    assert afterA + unread == text[|Decimal(a)|..] == afterB + tail;
  }

  function AfterFirst(id: GroupId): string
    requires id != []
  {
    if |id| == 1 then SUFFIX else "," + (Body(id[1..]) + SUFFIX)
  }

  lemma BodySplits(id: GroupId)
    requires id != []
    ensures Body(id) + SUFFIX == Decimal(id[0]) + AfterFirst(id) && EndsNumber(AfterFirst(id))
  {
  }

  /** No id's text is the beginning of a text that starts with another id's. */
  lemma {:induction false} BodyIsPrefixFree(a: GroupId, b: GroupId, tail: string)
    requires Body(a) + SUFFIX <= Body(b) + SUFFIX + tail
    ensures a == b
  {
    SameEmptiness(a, b, tail);
    if a != [] && b != [] {
      FirstNumbersAgree(a, b, tail);
      hide Body, AfterFirst;
      RestIsPrefix(a, b, tail);
      if |a| > 1 { BodyIsPrefixFree(a[1..], b[1..], tail); }
      assert a == [a[0]] + a[1..] && b == [b[0]] + b[1..];
    }
  }

  lemma SameEmptiness(a: GroupId, b: GroupId, tail: string)
    requires Body(a) + SUFFIX <= Body(b) + SUFFIX + tail
    ensures a == [] <==> b == []
  {
    FirstIsDigit(a);
    FirstIsDigit(b);
    hide Body;
    assert (Body(a) + SUFFIX)[0] == (Body(b) + SUFFIX + tail)[0] == (Body(b) + SUFFIX)[0];
  }

  lemma FirstNumbersAgree(a: GroupId, b: GroupId, tail: string)
    requires a != [] && b != [] && Body(a) + SUFFIX <= Body(b) + SUFFIX + tail
    ensures a[0] == b[0] && AfterFirst(a) <= AfterFirst(b) + tail
  {
    BodySplits(a);
    BodySplits(b);
    hide Body, Decimal, AfterFirst, EndsNumber;
    FirstNumber(a[0], AfterFirst(a), b[0], AfterFirst(b), tail);
  }

  lemma FirstIsDigit(id: GroupId)
    ensures IsDigit((Body(id) + SUFFIX)[0]) <==> id != []
  {
    if id != [] {
      BodySplits(id);
      DecimalDigits(id[0]);
    }
  }

  lemma DropFirst(c: string, a: string, d: string, b: string, tail: string)
    requires |c| == |d| && c + a <= (d + b) + tail
    ensures c == d && a <= b + tail
  {
    var text := d + (b + tail);
    assert text == (d + b) + tail;
    assert c == text[..|c|] && d == text[..|d|];
    assert a == (c + a)[|c|..] && b + tail == text[|c|..];
  }

  lemma RestIsPrefix(a: GroupId, b: GroupId, tail: string)
    requires a != [] && b != [] && AfterFirst(a) <= AfterFirst(b) + tail
    ensures |a| > 1 <==> |b| > 1
    ensures |a| > 1 ==> Body(a[1..]) + SUFFIX <= (Body(b[1..]) + SUFFIX) + tail
  {
    hide Body;
    var restA, restB := AfterFirst(a), AfterFirst(b) + tail;
    assert restA[0] == restB[0] == AfterFirst(b)[0];
    if |a| > 1 { DropFirst(",", Body(a[1..]) + SUFFIX, ",", Body(b[1..]) + SUFFIX, tail); }
  }

  /** Braces occur in an encoding only where the fixed text puts them. */
  lemma {:induction false} BodyHasNoBrace(id: GroupId)
    ensures '{' !in Body(id)
  {
    if id != [] {
      DecimalDigits(id[0]);
      BodyHasNoBrace(id[1..]);
    }
  }

  // ---------------------------------------------------------------- storage keys

  predicate PlainLabel(name: string) {
    '{' !in name
  }

  lemma OccursAtStart(name: string, other: GroupId, tail: string, id: GroupId)
    requires Occurs(name + Encode(other) + tail, Encode(id), |name|)
    ensures id == other
  {
    var key := name + Encode(other) + tail;
    assert Encode(id) == PREFIX + (Body(id) + SUFFIX) && Encode(other) == PREFIX + (Body(other) + SUFFIX);
    hide Body, Encode;
    assert Encode(id) <= Encode(other) + tail == key[|name|..];
    DropFirst(PREFIX, Body(id) + SUFFIX, PREFIX, Body(other) + SUFFIX, tail);
    BodyIsPrefixFree(id, other, tail);
  }

  /** Past its first character, an encoding spells no second encoding's start. */
  lemma NoInnerStart(other: GroupId, tail: string, j: nat)
    requires 0 < j < |Encode(other)| && j + 3 < |Encode(other) + tail|
    ensures (Encode(other) + tail)[j] != '{' || (Encode(other) + tail)[j + 3] != 'a'
  {
    BodyHasNoBrace(other);
    hide Body;
    var text := Encode(other);
    if |PREFIX| <= j < |PREFIX| + |Body(other)| {
      assert text[j] == Body(other)[j - |PREFIX|];
    }
  }

  /** An occurrence starts with a brace: at the group id, or past it. */
  lemma OccursWhere(name: string, other: GroupId, tail: string, id: GroupId, i: nat)
    requires PlainLabel(name) && Occurs(name + Encode(other) + tail, Encode(id), i)
    ensures i == |name| || i >= |name| + |Encode(other)|
  {
    var key := name + Encode(other) + tail;
    var text := Encode(id);
    assert text[0] == '{' && text[3] == 'a';
    hide Encode;
    assert key[i] == key[i..i + |text|][0] == '{' && key[i + 3] == key[i..i + |text|][3] == 'a';
    if |name| < i < |name| + |Encode(other)| {
      assert key[|name|..] == Encode(other) + tail;
      NoInnerStart(other, tail, i - |name|);
    }
  }

  lemma OccursAfter(before: string, rest: string, needle: string, i: nat)
    ensures Occurs(before + rest, needle, |before| + i) <==> Occurs(rest, needle, i)
  {
    if i + |needle| <= |rest| {
      assert (before + rest)[|before| + i..|before| + i + |needle|] == rest[i..i + |needle|];
    }
  }

  /**
   A group-scoped key contains a group's encoding exactly when it belongs to that
   group, unless its tail spells the encoding out a second time.
   */
  lemma KeyNamesItsGroup(name: string, other: GroupId, tail: string, id: GroupId)
    requires PlainLabel(name)
    ensures Contains(name + Encode(other) + tail, Encode(id)) <==> id == other || Contains(tail, Encode(id))
  {
    hide Encode, Occurs;
    var head, text := name + Encode(other), Encode(id);
    var key := head + tail;
    if id == other {
      assert key == name + (text + tail);
      OccursAfter(name, text + tail, text, 0);
      assert Occurs(text + tail, text, 0) by { StartsItself(text, tail); }
      assert Occurs(key, text, |name|);
    }
    if Contains(tail, text) {
      var i :| 0 <= i <= |tail| && Occurs(tail, text, i);
      OccursAfter(head, tail, text, i);
      assert Occurs(key, text, |head| + i);
    }
    if Contains(key, text) {
      var i :| 0 <= i <= |key| && Occurs(key, text, i);
      OccursWhere(name, other, tail, id, i);
      if i == |name| {
        OccursAtStart(name, other, tail, id);
      } else {
        OccursAfter(head, tail, text, i - |head|);
      }
    }
  }

  lemma StartsItself(text: string, tail: string)
    ensures Occurs(text + tail, text, 0)
  {
  }
}
