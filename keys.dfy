/**
 * Cache keys of src/methods.ts: `block/${id}${full ? '+' : ''}`, where `id`
 * is whatever the request or the block carried, turned into text the way a
 * JavaScript template literal does.
 */
module BlockKeys {

  /** A block identifier as JSON delivers it: a number, a string or nothing. */
  datatype Id = Num(n: nat) | Str(s: string) | Absent

  /** The character of a decimal digit. */
  function Digit(d: nat): (c: char)
    requires d < 10
    ensures c as int == '0' as int + d
  {
    ('0' as int + d) as char
  }

  /** `String(n)` for a non-negative integer: its decimal digits, no sign. */
  function Decimal(n: nat): (s: string)
    ensures |s| >= 1
    ensures n < 10 <==> |s| == 1
    ensures forall i :: 0 <= i < |s| ==> '0' <= s[i] <= '9'
  {
    if n < 10 then [Digit(n)] else Decimal(n / 10) + [Digit(n % 10)]
  }

  /** Two numbers with the same decimal text are the same number. */
  lemma {:induction false} DecimalInjective(a: nat, b: nat)
    requires Decimal(a) == Decimal(b)
    ensures a == b
  {
    if a >= 10 && b >= 10 {
      var da, db := Decimal(a), Decimal(b);
      assert da[|da| - 1] == Digit(a % 10) && db[|db| - 1] == Digit(b % 10);
      assert da[..|da| - 1] == Decimal(a / 10);
      assert db[..|db| - 1] == Decimal(b / 10);
      DecimalInjective(a / 10, b / 10);
    }
  }

  /**
   * `${id}`: the text a template literal makes of `id`. Only a string id can
   * render empty or end in `+`; a number renders as digits alone.
   */
  function Render(id: Id): (r: string)
    ensures !id.Str? ==> r != [] && r[|r| - 1] != '+'
    ensures id.Num? ==> forall i :: 0 <= i < |r| ==> '0' <= r[i] <= '9'
  {
    match id
    case Num(n) => Decimal(n)
    case Str(s) => s
    case Absent => "undefined"
  }

  /** `id === 'latest' || id === 'earliest' || id === 'pending'`. */
  predicate IsTag(id: Id)
    ensures IsTag(id) ==> id.Str?
  {
    id == Str("latest") || id == Str("earliest") || id == Str("pending")
  }

  /** The cache key for block `id`, with the `+` marking a full block. */
  function BlockKey(id: Id, full: bool): (k: string)
    ensures |k| == 6 + |Render(id)| + (if full then 1 else 0)
    ensures k[..6] == "block/"
  {
    "block/" + Render(id) + (if full then "+" else "")
  }

  /** A full key ends in `+`; any other ends as its id's rendering does. */
  lemma KeyEnd(id: Id, full: bool)
    ensures var k, r := BlockKey(id, full), Render(id);
      k[|k| - 1] == if full then '+' else if r == [] then '/' else r[|r| - 1]
  {
  }

  /** The same id asked for full and not full never shares a key. */
  lemma FullFlagSeparates(id: Id)
    ensures BlockKey(id, true) != BlockKey(id, false)
  {
    assert |BlockKey(id, true)| != |BlockKey(id, false)|;
  }

  /**
   * When neither rendering ends in `+`, two keys are equal exactly when the
   * ids render alike and the flags agree.
   */
  lemma {:induction false} KeyEquality(x: Id, fx: bool, y: Id, fy: bool)
    requires Render(x) == [] || Render(x)[|Render(x)| - 1] != '+'
    requires Render(y) == [] || Render(y)[|Render(y)| - 1] != '+'
    ensures BlockKey(x, fx) == BlockKey(y, fy) <==> Render(x) == Render(y) && fx == fy
  {
    var kx, ky := BlockKey(x, fx), BlockKey(y, fy);
    if kx == ky {
      KeyEnd(x, fx);
      KeyEnd(y, fy);
      var rx, ry := Render(x), Render(y);
      assert |rx| == |ry|;
      assert rx == kx[6..6 + |rx|];
      assert ry == ky[6..6 + |ry|];
    }
  }

  /** Numeric ids: the key determines the block number and the flag. */
  lemma NumericKeys(a: nat, fa: bool, b: nat, fb: bool)
    ensures BlockKey(Num(a), fa) == BlockKey(Num(b), fb) <==> a == b && fa == fb
  {
    var da, db := Decimal(a), Decimal(b);
    assert da[|da| - 1] != '+' && db[|db| - 1] != '+';
    KeyEquality(Num(a), fa, Num(b), fb);
    if da == db {
      DecimalInjective(a, b);
    }
  }

  /** A numeric id and the string of its digits share every key. */
  lemma NumberAndStringAlike(n: nat, full: bool)
    ensures BlockKey(Num(n), full) == BlockKey(Str(Decimal(n)), full)
  {
  }

  /**
   * A string id ending in `+` lands on the full-block key of another id:
   * `"5+"` not full and `5` full are the same entry.
   */
  lemma StringCollidesWithFull()
    ensures BlockKey(Str("5+"), false) == BlockKey(Num(5), true)
  {
    assert Decimal(5) == "5";
  }
}
