/**
 * The JavaScript values the components pass around: parsed JSON, task
 * records (plain objects) and the conversions the source applies to them
 * (truthiness, object spread, template-string interpolation).
 */
module Values {

  /** A JavaScript value as far as the components observe it. Numbers are integers here. */
  datatype Value =
    | Undefined
    | Null
    | Bool(b: bool)
    | Num(n: int)
    | Str(s: string)
    | Arr(items: seq<Value>)
    | Obj(fields: Fields)

  /** The own enumerable properties of a plain object. */
  type Fields = map<string, Value>

  /** Property access `o[key]`: a missing property reads as `undefined`. */
  function Get(o: Fields, key: string): Value
  {
    if key in o then o[key] else Undefined
  }

  /** JavaScript truthiness, as used by `!x`, `x && y` and `filter(t => t.completed)`. */
  predicate Truthy(v: Value)
    ensures v.Bool? ==> (Truthy(v) <==> v.b)
    ensures v.Undefined? || v.Null? ==> !Truthy(v)
    ensures v.Arr? || v.Obj? ==> Truthy(v)
    ensures v.Num? ==> (Truthy(v) <==> v.n != 0)
    ensures v.Str? ==> (Truthy(v) <==> v.s != "")
  {
    match v
    case Undefined => false
    case Null => false
    case Bool(b) => b
    case Num(n) => n != 0
    case Str(s) => s != ""
    case Arr(_) => true
    case Obj(_) => true
  }

  /** The object literal `{ ...base, ...over }`: the properties of `over` win. */
  function Merge(base: Fields, over: Fields): (r: Fields)
    ensures r.Keys == base.Keys + over.Keys
    ensures forall k :: k in over ==> r[k] == over[k]
    ensures forall k :: k in base && k !in over ==> r[k] == base[k]
  {
    base + over
  }

  /** The decimal digit for `d`. */
  function Digit(d: nat): (c: char)
    requires d < 10
    ensures '0' <= c <= '9'
  {
    ('0' as int + d) as char
  }

  /** The value of a decimal digit character (0 for any other character). */
  function DigitValue(c: char): nat
  {
    if '0' <= c <= '9' then c as int - '0' as int else 0
  }

  /** The number a string of decimal digits denotes, read left to right (Horner's rule). */
  function DigitsValue(r: string): nat
  {
    if r == [] then 0 else DigitsValue(r[..|r| - 1]) * 10 + DigitValue(r[|r| - 1])
  }

  /** The decimal numeral of `n`, as `String(n)` writes it: digits that denote `n`, no leading zero. */
  function Decimal(n: nat): (r: string)
    ensures |r| >= 1 && forall i :: 0 <= i < |r| ==> '0' <= r[i] <= '9'
    ensures DigitsValue(r) == n
    ensures (|r| == 1) == (n < 10)
    ensures r[0] != '0' || n == 0
  {
    if n < 10 then [Digit(n)]
    else
      var r := Decimal(n / 10) + [Digit(n % 10)];
      assert r[..|r| - 1] == Decimal(n / 10);
      r
  }

  /** Distinct numbers have distinct numerals, so index keys never clash. */
  lemma {:induction false} DecimalInjective(a: nat, b: nat)
    requires Decimal(a) == Decimal(b)
    ensures a == b
  {
    if a >= 10 && b >= 10 {
      var da, db := Decimal(a), Decimal(b);
      assert da[..|da| - 1] == Decimal(a / 10);
      assert db[..|db| - 1] == Decimal(b / 10);
      DecimalInjective(a / 10, b / 10);
      assert Digit(a % 10) == da[|da| - 1] == db[|db| - 1] == Digit(b % 10);
    }
  }

  /** The properties `{ ...items }` copies from an array or string: one per index. */
  function IndexFields(items: seq<Value>): (r: Fields)
    ensures forall i :: 0 <= i < |items| ==> Decimal(i) in r && r[Decimal(i)] == items[i]
    ensures |r| <= |items|
  {
    if items == [] then map[]
    else
      var n := |items| - 1;
      var prefix := IndexFields(items[..n]);
      assert forall i :: 0 <= i < n ==> Decimal(i) != Decimal(n) by {
        forall i | 0 <= i < n ensures Decimal(i) != Decimal(n) {
          if Decimal(i) == Decimal(n) { DecimalInjective(i, n); }
        }
      }
      prefix[Decimal(n) := items[n]]
  }

  /** The properties that `{ ...v }` copies from a value into a new object. */
  function Spread(v: Value): (r: Fields)
    ensures v.Obj? ==> r == v.fields
    ensures v.Arr? ==> forall i :: 0 <= i < |v.items| ==> Decimal(i) in r && r[Decimal(i)] == v.items[i]
    ensures v.Arr? ==> |r| <= |v.items|
    ensures v.Str? ==> forall i :: 0 <= i < |v.s| ==> Decimal(i) in r && r[Decimal(i)] == Str([v.s[i]])
    ensures v.Str? ==> |r| <= |v.s|
    ensures v.Undefined? || v.Null? || v.Bool? || v.Num? ==> r == map[]
  {
    match v
    case Obj(fields) => fields
    case Arr(items) => IndexFields(items)
    case Str(s) => IndexFields(seq(|s|, i requires 0 <= i < |s| => Str([s[i]])))
    case _ => map[]
  }

  /** `String(n)` for an integer. */
  function NumberText(n: int): (r: string)
    ensures r != [] && (r[0] == '-' <==> n < 0)
    ensures n >= 0 ==> DigitsValue(r) == n
    ensures n < 0 ==> DigitsValue(r[1..]) == -n
  {
    if n < 0 then "-" + Decimal(-n) else Decimal(n)
  }

  /** The total length of the pieces. */
  function TotalLength(parts: seq<string>): nat
  {
    if parts == [] then 0 else |parts[0]| + TotalLength(parts[1..])
  }

  /** Where piece `k` starts in the joined text: after the earlier pieces and one comma each. */
  function PieceOffset(parts: seq<string>, k: nat): nat
    requires k <= |parts|
  {
    TotalLength(parts[..k]) + k
  }

  lemma PieceOffsetStep(parts: seq<string>, k: nat)
    requires 0 < k <= |parts|
    ensures PieceOffset(parts, k) == |parts[0]| + 1 + PieceOffset(parts[1..], k - 1)
  {
    assert parts[..k][1..] == parts[1..][..k - 1];
  }

  /**
   * The pieces joined with commas between them, as `Array.prototype.join` does. The
   * length leaves room for exactly one comma between consecutive pieces;
   * `JoinPlacesPiece` says where each piece and each comma sits.
   */
  function JoinWithCommas(parts: seq<string>): (r: string)
    ensures parts == [] ==> r == ""
    ensures parts != [] ==> |r| == TotalLength(parts) + |parts| - 1
    ensures parts != [] ==> r[..|parts[0]|] == parts[0]
  {
    if parts == [] then ""
    else if |parts| == 1 then parts[0]
    else parts[0] + "," + JoinWithCommas(parts[1..])
  }

  /**
   * Piece `k` of a join sits at `PieceOffset(parts, k)`, and a comma follows it unless
   * it is the last; with the length of the join, this fixes every character.
   */
  lemma {:induction false} JoinPlacesPiece(parts: seq<string>, k: nat)
    requires k < |parts|
    ensures PieceOffset(parts, k) + |parts[k]| <= |JoinWithCommas(parts)|
    ensures JoinWithCommas(parts)[PieceOffset(parts, k)..PieceOffset(parts, k) + |parts[k]|] == parts[k]
    ensures k < |parts| - 1 ==>
      PieceOffset(parts, k) + |parts[k]| < |JoinWithCommas(parts)| &&
      JoinWithCommas(parts)[PieceOffset(parts, k) + |parts[k]|] == ','
  {
    var r := JoinWithCommas(parts);
    var off := PieceOffset(parts, k);
    if k == 0 {
      assert parts[..0] == [];
      if |parts| > 1 {
        assert r == parts[0] + "," + JoinWithCommas(parts[1..]);
      }
    } else {
      var rest := JoinWithCommas(parts[1..]);
      assert r == parts[0] + "," + rest;
      JoinPlacesPiece(parts[1..], k - 1);
      PieceOffsetStep(parts, k);
      var inner := PieceOffset(parts[1..], k - 1);
      assert off == |parts[0]| + 1 + inner;
      assert r[off..off + |parts[k]|] == rest[inner..inner + |parts[k]|];
    }
  }

  /** How far `Display` may still descend into `v` at its own level. */
  function Width(v: Value): nat
  {
    if v.Arr? then |v.items| + 1 else 0
  }

  /** The text `join` uses for one element: empty for `undefined` and `null`, else its own text. */
  function ElementText(e: Value): string
    decreases e, Width(e) + 1
  {
    if e.Undefined? || e.Null? then "" else Display(e)
  }

  /** The texts `join` uses for the elements of array `v` from index `from` on, in order. */
  function ElementTexts(v: Value, from: nat): (r: seq<string>)
    requires v.Arr? && from <= |v.items|
    ensures |r| == |v.items| - from
    ensures forall k :: 0 <= k < |r| ==> r[k] == ElementText(v.items[from + k])
    decreases v, |v.items| - from
  {
    if from == |v.items| then []
    else
      var tail := ElementTexts(v, from + 1);
      var r := [ElementText(v.items[from])] + tail;
      assert forall k :: 0 < k < |r| ==> r[k] == tail[k - 1];
      r
  }

  /**
   * `${v}` in a template string: the text JavaScript substitutes for `v`. An array
   * gives its elements' texts joined with commas.
   */
  function Display(v: Value): (r: string)
    ensures v.Str? ==> r == v.s
    ensures v.Undefined? ==> r == "undefined"
    ensures v.Null? ==> r == "null"
    ensures v.Bool? ==> r == (if v.b then "true" else "false")
    ensures v.Num? ==> r == NumberText(v.n)
    ensures v.Obj? ==> r == "[object Object]"
    ensures v.Arr? ==> r == JoinWithCommas(ElementTexts(v, 0))
    ensures v.Arr? && |v.items| == 1 && v.items[0].Str? ==> r == v.items[0].s
    decreases v, Width(v)
  {
    match v
    case Undefined => "undefined"
    case Null => "null"
    case Bool(b) => if b then "true" else "false"
    case Num(n) => NumberText(n)
    case Str(s) => s
    case Arr(items) => JoinWithCommas(ElementTexts(v, 0))
    case Obj(_) => "[object Object]"
  }

  /**
   * `${arr}` puts the text of element `k` at the offset after the earlier elements' texts
   * and one comma each, and a comma after every element but the last.
   */
  lemma DisplayArrayPlacesElement(v: Value, k: nat)
    requires v.Arr? && k < |v.items|
    ensures var parts := ElementTexts(v, 0);
      var at := PieceOffset(parts, k) + |ElementText(v.items[k])|;
      at <= |Display(v)| &&
      Display(v)[PieceOffset(parts, k)..at] == ElementText(v.items[k]) &&
      (k < |v.items| - 1 ==> at < |Display(v)| && Display(v)[at] == ',')
  {
    var parts := ElementTexts(v, 0);
    assert Display(v) == JoinWithCommas(parts);
    assert parts[k] == ElementText(v.items[k]);
    JoinPlacesPiece(parts, k);
  }
}
