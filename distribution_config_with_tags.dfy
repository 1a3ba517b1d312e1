/**
 * The CloudFront `DistributionConfigWithTags` model object: two nullable
 * references with setters, getters and fluent `with` methods, a null-aware
 * `equals`, a 32-bit `hashCode`, a `toString` layout and a shallow `clone`.
 */
module CloudFrontModel {

  /** Java's `int`: 32-bit two's complement. */
  newtype Int32 = x: int | -0x8000_0000 <= x < 0x8000_0000

  const Modulus: int := 0x1_0000_0000

  /** The `int` that Java arithmetic yields for the mathematical result `x`. */
  function Wrap(x: int): (r: Int32)
    ensures (r as int - x) % Modulus == 0
  {
    ((x + 0x8000_0000) % Modulus - 0x8000_0000) as Int32
  }

  /** Adding a multiple of 2^32 does not change the wrapped value. */
  lemma WrapShift(x: int, k: int)
    ensures Wrap(x + k * Modulus) == Wrap(x)
  {
    var y := x + 0x8000_0000;
    var q := y / Modulus;
    assert y == q * Modulus + y % Modulus;
    assert y + k * Modulus == (q + k) * Modulus + y % Modulus;
    DivModUnique(y + k * Modulus, q + k, y % Modulus);
  }

  lemma DivModUnique(n: int, q: int, r: int)
    requires n == q * Modulus + r && 0 <= r < Modulus
    ensures n % Modulus == r
  {
  }

  /** Two wrapped operations in a row wrap once: the closed form of `hashCode`. */
  lemma WrapStep(acc: int, h: int)
    ensures Wrap(Wrap(31 * Wrap(acc) as int) as int + h) == Wrap(31 * acc + h)
  {
    var w := Wrap(acc) as int;
    var k := (w - acc) / Modulus;
    assert w == acc + k * Modulus;
    assert 31 * w == 31 * acc + (31 * k) * Modulus;
    var m := Wrap(31 * w) as int;
    WrapShift(31 * acc, 31 * k);
    var j := (m - 31 * w) / Modulus;
    assert m + h == 31 * w + h + j * Modulus;
    WrapShift(31 * w + h, j);
    assert 31 * w + h == 31 * acc + h + (31 * k) * Modulus;
    WrapShift(31 * acc + h, 31 * k);
  }

  /** An opaque CloudFront distribution configuration; its contents are not modelled. */
  class DistributionConfig {
    constructor () {}
  }

  /** An opaque CloudFront tag set; its contents are not modelled. */
  class Tags {
    constructor () {}
  }

  /** The nested type's own `equals`, `hashCode` and `toString`. */
  datatype NestedOps<-T> = NestedOps(equals: (T, T) -> bool, hashCode: T -> Int32, toString: T -> string)

  /** Null-aware equality of the configuration field: both null, or both non-null and equal. */
  predicate ConfigEquals(a: DistributionConfig?, b: DistributionConfig?, ops: NestedOps<DistributionConfig>) {
    (a == null && b == null) || (a != null && b != null && ops.equals(a, b))
  }

  /** Null-aware equality of the tags field. */
  predicate TagsEquals(a: Tags?, b: Tags?, ops: NestedOps<Tags>) {
    (a == null && b == null) || (a != null && b != null && ops.equals(a, b))
  }

  /** The hash of the configuration field: 0 for null. */
  function ConfigHash(a: DistributionConfig?, ops: NestedOps<DistributionConfig>): Int32 {
    if a == null then 0 else ops.hashCode(a)
  }

  /** The hash of the tags field: 0 for null. */
  function TagsHash(a: Tags?, ops: NestedOps<Tags>): Int32 {
    if a == null then 0 else ops.hashCode(a)
  }

  class DistributionConfigWithTags {
    var distributionConfig: DistributionConfig?
    var tags: Tags?

    constructor ()
      ensures distributionConfig == null && tags == null
    {
      distributionConfig, tags := null, null;
    }

    function GetDistributionConfig(): DistributionConfig?
      reads this
    {
      distributionConfig
    }

    function GetTags(): Tags?
      reads this
    {
      tags
    }

    method SetDistributionConfig(x: DistributionConfig?)
      modifies this
      ensures GetDistributionConfig() == x && GetTags() == old(GetTags())
    {
      distributionConfig := x;
    }

    method SetTags(x: Tags?)
      modifies this
      ensures GetTags() == x && GetDistributionConfig() == old(GetDistributionConfig())
    {
      tags := x;
    }

    /** Sets the configuration and returns this same object, for chaining. */
    method WithDistributionConfig(x: DistributionConfig?) returns (r: DistributionConfigWithTags)
      modifies this
      ensures r == this
      ensures GetDistributionConfig() == x && GetTags() == old(GetTags())
    {
      SetDistributionConfig(x);
      r := this;
    }

    /** Sets the tags and returns this same object, for chaining. */
    method WithTags(x: Tags?) returns (r: DistributionConfigWithTags)
      modifies this
      ensures r == this
      ensures GetTags() == x && GetDistributionConfig() == old(GetDistributionConfig())
    {
      SetTags(x);
      r := this;
    }

    /**
     * `equals(Object)`: true for the same reference, false for null and for
     * an object of another class; otherwise both fields are compared, null
     * aware, with the argument's field as the receiver of the nested equals.
     */
    function Equals(obj: object?, dcOps: NestedOps<DistributionConfig>, tagsOps: NestedOps<Tags>): (r: bool)
      reads this, obj
      ensures this == obj ==> r
      ensures obj == null || !(obj is DistributionConfigWithTags) ==> !r
      ensures obj != this && obj is DistributionConfigWithTags ==>
                (r <==> ConfigEquals((obj as DistributionConfigWithTags).distributionConfig, distributionConfig, dcOps)
                        && TagsEquals((obj as DistributionConfigWithTags).tags, tags, tagsOps))
    {
      if this == obj then true
      else if obj == null then false
      else if !(obj is DistributionConfigWithTags) then false
      else
        var other := obj as DistributionConfigWithTags;
        if (other.GetDistributionConfig() == null) != (GetDistributionConfig() == null) then false
        else if other.GetDistributionConfig() != null
                && !dcOps.equals(other.GetDistributionConfig(), GetDistributionConfig()) then false
        else if (other.GetTags() == null) != (GetTags() == null) then false
        else if other.GetTags() != null && !tagsOps.equals(other.GetTags(), GetTags()) then false
        else true
    }

    /**
     * `hashCode()`: starting from 1, each field in turn is folded in as
     * `31 * hash + fieldHash` in wrapping `int` arithmetic.
     */
    function HashCode(dcOps: NestedOps<DistributionConfig>, tagsOps: NestedOps<Tags>): (r: Int32)
      reads this
      ensures r == Wrap(961 + 31 * ConfigHash(distributionConfig, dcOps) as int + TagsHash(tags, tagsOps) as int)
    {
      var prime := 31;
      var hashCode: Int32 := 1;
      var hashCode := Wrap(Wrap(prime * hashCode as int) as int + ConfigHash(GetDistributionConfig(), dcOps) as int);
      var hashCode := Wrap(Wrap(prime * hashCode as int) as int + TagsHash(GetTags(), tagsOps) as int);
      WrapStep(31 + ConfigHash(distributionConfig, dcOps) as int, TagsHash(tags, tagsOps) as int);
      hashCode
    }

    /**
     * `toString()`: "{", then "DistributionConfig: <config>," when the
     * configuration is set, then "Tags: <tags>" when the tags are set, then "}".
     * The configuration part and the tags part are pinned down where they
     * sit, and the length leaves room for nothing else.
     */
    function ToString(dcOps: NestedOps<DistributionConfig>, tagsOps: NestedOps<Tags>): (r: string)
      reads this
      ensures |r| >= 2 && r[0] == '{' && r[|r| - 1] == '}'
      ensures |r| == 2 + (if distributionConfig == null then 0 else 21 + |dcOps.toString(distributionConfig)|)
                       + (if tags == null then 0 else 6 + |tagsOps.toString(tags)|)
      ensures r == "{}" <==> distributionConfig == null && tags == null
      ensures distributionConfig != null ==>
                r[1..21] == "DistributionConfig: " && r[21..21 + |dcOps.toString(distributionConfig)|] == dcOps.toString(distributionConfig)
                && r[21 + |dcOps.toString(distributionConfig)|] == ','
      ensures distributionConfig == null && tags != null ==> r[1..7] == "Tags: "
      ensures tags != null ==>
                r[|r| - 7 - |tagsOps.toString(tags)|..|r| - 1] == "Tags: " + tagsOps.toString(tags)
    {
      var sb := "{";
      var sb := if GetDistributionConfig() != null
                then sb + "DistributionConfig: " + dcOps.toString(GetDistributionConfig()) + ","
                else sb;
      var sb := if GetTags() != null then sb + "Tags: " + tagsOps.toString(GetTags()) else sb;
      sb + "}"
    }

    /** `clone()`: a new object holding the same two references. */
    method Clone() returns (c: DistributionConfigWithTags)
      ensures fresh(c)
      ensures c.GetDistributionConfig() == GetDistributionConfig() && c.GetTags() == GetTags()
    {
      c := new DistributionConfigWithTags();
      c.distributionConfig, c.tags := distributionConfig, tags;
    }
  }

  // ---------------------------------------------------------------------
  // equals and hashCode together
  // ---------------------------------------------------------------------

  /** Two objects holding the same references are equal, given a reflexive nested equals. */
  lemma SameFieldsEqual(a: DistributionConfigWithTags, b: DistributionConfigWithTags,
                        dcOps: NestedOps<DistributionConfig>, tagsOps: NestedOps<Tags>)
    requires a.distributionConfig != null ==> dcOps.equals(a.distributionConfig, a.distributionConfig)
    requires a.tags != null ==> tagsOps.equals(a.tags, a.tags)
    requires a.distributionConfig == b.distributionConfig && a.tags == b.tags
    ensures a.Equals(b, dcOps, tagsOps) && b.Equals(a, dcOps, tagsOps)
  {
  }

  /** `equals` is symmetric when the nested types' equals are. */
  lemma EqualsSymmetric(a: DistributionConfigWithTags, b: DistributionConfigWithTags,
                        dcOps: NestedOps<DistributionConfig>, tagsOps: NestedOps<Tags>)
    requires forall x, y :: dcOps.equals(x, y) == dcOps.equals(y, x)
    requires forall x, y :: tagsOps.equals(x, y) == tagsOps.equals(y, x)
    ensures a.Equals(b, dcOps, tagsOps) == b.Equals(a, dcOps, tagsOps)
  {
  }

  /** Equal objects have equal hash codes, when the nested types keep that contract. */
  lemma EqualHashCodes(a: DistributionConfigWithTags, b: DistributionConfigWithTags,
                       dcOps: NestedOps<DistributionConfig>, tagsOps: NestedOps<Tags>)
    requires forall x, y :: dcOps.equals(x, y) ==> dcOps.hashCode(x) == dcOps.hashCode(y)
    requires forall x, y :: tagsOps.equals(x, y) ==> tagsOps.hashCode(x) == tagsOps.hashCode(y)
    requires a.Equals(b, dcOps, tagsOps)
    ensures a.HashCode(dcOps, tagsOps) == b.HashCode(dcOps, tagsOps)
  {
    if a != b {
      assert ConfigHash(a.distributionConfig, dcOps) == ConfigHash(b.distributionConfig, dcOps);
      assert TagsHash(a.tags, tagsOps) == TagsHash(b.tags, tagsOps);
    }
  }

  /** An object with both fields null hashes to 31 * 31 = 961. */
  lemma EmptyHashCode(a: DistributionConfigWithTags, dcOps: NestedOps<DistributionConfig>, tagsOps: NestedOps<Tags>)
    requires a.distributionConfig == null && a.tags == null
    ensures a.HashCode(dcOps, tagsOps) == 961
  {
  }

  /** A clone is a different object that is equal to the original, both ways. */
  method CloneIsEqual(a: DistributionConfigWithTags, dcOps: NestedOps<DistributionConfig>, tagsOps: NestedOps<Tags>)
    returns (c: DistributionConfigWithTags)
    requires a.distributionConfig != null ==> dcOps.equals(a.distributionConfig, a.distributionConfig)
    requires a.tags != null ==> tagsOps.equals(a.tags, a.tags)
    ensures c != a
    ensures a.Equals(c, dcOps, tagsOps) && c.Equals(a, dcOps, tagsOps)
    ensures a.HashCode(dcOps, tagsOps) == c.HashCode(dcOps, tagsOps)
  {
    c := a.Clone();
    SameFieldsEqual(a, c, dcOps, tagsOps);
  }
}
