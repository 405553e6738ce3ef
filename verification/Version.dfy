/** Omaha versions A.B.C.D: printing, parsing, padding and order. */
module Version {
  import opened Wrappers
  import opened MachineInts
  import opened Text

  /** Always four components; comparison is the derived, lexicographic one. */
  type Version = v: seq<u32> | |v| == 4 witness [0, 0, 0, 0]

  datatype ParseError = TooManyNumbers | BadNumber

  const COMPONENTS := 4

  function Component(parts: seq<u32>, i: nat): u32 {
    if i < |parts| then parts[i] else 0
  }

  /** `From<[u32; n]>`: the components given, then zeros. */
  function Pad(parts: seq<u32>): (v: Version)
    requires |parts| <= COMPONENTS
    ensures forall i :: 0 <= i < COMPONENTS ==> v[i] == Component(parts, i)
  {
    parts + seq(COMPONENTS - |parts|, i => 0)
  }

  function ToString(v: Version): string {
    Join([PrintNat(v[0]), PrintNat(v[1]), PrintNat(v[2]), PrintNat(v[3])], '.')
  }

  function Printed(v: Version): string {
    PrintNat(v[0]) + "." + PrintNat(v[1]) + "." + PrintNat(v[2]) + "." + PrintNat(v[3])
  }

  /** Printing joins the four components with dots. */
  lemma PrintedIsToString(v: Version)
    ensures ToString(v) == Printed(v)
  {
    hide PrintNat;
    var a, b, c, d := PrintNat(v[0]), PrintNat(v[1]), PrintNat(v[2]), PrintNat(v[3]);
    assert Join([d], '.') == d;
    assert [c, d][1..] == [d] && Join([c, d], '.') == c + ['.'] + d;
    assert [b, c, d][1..] == [c, d] && Join([b, c, d], '.') == b + ['.'] + Join([c, d], '.');
    assert [a, b, c, d][1..] == [b, c, d] && Join([a, b, c, d], '.') == a + ['.'] + Join([b, c, d], '.');
    assert a + ['.'] + (b + ['.'] + (c + ['.'] + d)) == a + "." + b + "." + c + "." + d;
  }

  function Numeral(s: string): Option<nat> {
    ParseUnsigned(s, U32_MAX)
  }

  /** The first faulty component decides the error; a fifth one is only reached after four good ones. */
  function ParseParts(parts: seq<string>, done: seq<u32>): Result<Version, ParseError>
    requires |done| <= COMPONENTS
  {
    if parts == [] then Success(Pad(done))
    else if |done| == COMPONENTS then Failure(TooManyNumbers)
    else
      match Numeral(parts[0])
      case None => Failure(BadNumber)
      case Some(n) => ParseParts(parts[1..], done + [n])
  }

  function Parse(s: string): Result<Version, ParseError> {
    ParseParts(Split(s, '.'), [])
  }

  /** `FromStr::from_str`. */
  method FromStr(s: string) returns (r: Result<Version, ParseError>)
    ensures r == Parse(s)
  {
    var nums := Split(s, '.');
    var numbers := new u32[COMPONENTS](i => 0);
    var i := 0;
    while i < |nums|
      invariant 0 <= i <= |nums| && i <= COMPONENTS
      invariant forall j :: i <= j < COMPONENTS ==> numbers[j] == 0
      invariant ParseParts(nums[i..], numbers[..i]) == Parse(s)
    {
      if i >= 4 {
        return Failure(TooManyNumbers);
      }
      var v := Numeral(nums[i]);
      if v.None? {
        return Failure(BadNumber);
      }
      ghost var before := numbers[..i];
      numbers[i] := v.value;
      assert numbers[..i + 1] == before + [v.value];
      assert nums[i..][1..] == nums[i + 1..];
      i := i + 1;
    }
    assert numbers[..] == Pad(numbers[..i]);
    assert nums[i..] == [];
    return Success(numbers[..]);
  }

  predicate Less(v: Version, w: Version) {
    v[0] < w[0] || (v[0] == w[0] &&
    (v[1] < w[1] || (v[1] == w[1] &&
    (v[2] < w[2] || (v[2] == w[2] && v[3] < w[3])))))
  }

  /** Parsing succeeds exactly on one to four dot-separated numerals that fit 32 bits, and gives
      their values followed by zeros. */
  lemma ParseSucceedsExactly(s: string)
    ensures var parts := Split(s, '.');
            Parse(s).Success? <==>
            |parts| <= COMPONENTS && forall i :: 0 <= i < |parts| ==> Numeral(parts[i]).Some?
    ensures var parts := Split(s, '.');
            Parse(s).Success? ==>
              forall i :: 0 <= i < COMPONENTS ==>
                Parse(s).value[i] == if i < |parts| then Numeral(parts[i]).GetOr(0) else 0
  {
    ParsePartsSucceedsExactly(Split(s, '.'), []);
  }

  lemma {:induction false} ParsePartsSucceedsExactly(parts: seq<string>, done: seq<u32>)
    requires |done| <= COMPONENTS
    ensures ParseParts(parts, done).Success? <==>
            |done| + |parts| <= COMPONENTS && forall i :: 0 <= i < |parts| ==> Numeral(parts[i]).Some?
    ensures ParseParts(parts, done).Success? ==>
              forall i :: 0 <= i < COMPONENTS ==>
                ParseParts(parts, done).value[i] ==
                if i < |done| then done[i]
                else if i < |done| + |parts| then Numeral(parts[i - |done|]).GetOr(0)
                else 0
  {
    if parts != [] && |done| < COMPONENTS && Numeral(parts[0]).Some? {
      var next := done + [Numeral(parts[0]).value];
      ParsePartsSucceedsExactly(parts[1..], next);
      assert forall i :: 1 <= i < |parts| ==> parts[i] == parts[1..][i - 1];
      assert ParseParts(parts, done) == ParseParts(parts[1..], next);
    }
  }

  /** Which error it is: more than four components, if the first four are numerals, and otherwise the first of
      them that is not. */
  lemma ParseFailsExactly(s: string)
    ensures var parts := Split(s, '.');
            && (Parse(s) == Failure(TooManyNumbers) <==>
                  |parts| > 4 && forall i :: 0 <= i < 4 ==> Numeral(parts[i]).Some?)
            && (Parse(s) == Failure(BadNumber) <==>
                  exists i :: 0 <= i < |parts| && i < 4 && Numeral(parts[i]).None?)
  {
    hide Numeral;
    ParsePartsFailsExactly(Split(s, '.'), []);
  }

  lemma {:induction false} ParsePartsFailsExactly(parts: seq<string>, done: seq<u32>)
    requires |done| <= COMPONENTS
    ensures ParseParts(parts, done) == Failure(TooManyNumbers) <==>
            |done| + |parts| > 4 && forall i :: 0 <= i < 4 - |done| ==> Numeral(parts[i]).Some?
    ensures ParseParts(parts, done) == Failure(BadNumber) <==>
            exists i :: 0 <= i < |parts| && i < 4 - |done| && Numeral(parts[i]).None?
  {
    hide Numeral, Pad;
    if parts != [] && |done| < COMPONENTS && Numeral(parts[0]).Some? {
      NumeralFits(parts[0]);
      var next := done + [Numeral(parts[0]).value];
      ParsePartsFailsExactly(parts[1..], next);
      assert forall i :: 1 <= i < |parts| ==> parts[i] == parts[1..][i - 1];
    }
  }

  lemma NumeralFits(s: string)
    ensures Numeral(s).Some? ==> Numeral(s).value <= U32_MAX
  {
  }

  lemma ParsePrintedVersion(v: Version)
    ensures Parse(ToString(v)) == Success(v)
  {
    var parts := [PrintNat(v[0]), PrintNat(v[1]), PrintNat(v[2]), PrintNat(v[3])];
    forall i | 0 <= i < 4
      ensures '.' !in parts[i] && Numeral(parts[i]) == Some(v[i])
    {
      PrintNatDigits(v[i]);
      ParsePrinted(v[i], U32_MAX);
    }
    SplitJoin(parts, '.');
    ParseSucceedsExactly(ToString(v));
    assert Parse(ToString(v)).value == v;
  }

  /** A shorter version equals its form with zeros appended, and two versions of any lengths
      compare at the first component where they differ, a missing component counting as zero. */
  lemma ShortVersionsOrderAsPadded(p: seq<u32>, q: seq<u32>)
    requires |p| <= COMPONENTS && |q| <= COMPONENTS
    ensures |p| < COMPONENTS ==> Pad(p + [0]) == Pad(p)
    ensures Less(Pad(p), Pad(q)) <==>
            exists i :: 0 <= i < COMPONENTS && Component(p, i) < Component(q, i) &&
                        forall j :: 0 <= j < i ==> Component(p, j) == Component(q, j)
    ensures Less(Pad(p), Pad(q)) || Pad(p) == Pad(q) || Less(Pad(q), Pad(p))
  {
    var v, w := Pad(p), Pad(q);
    assert forall i :: 0 <= i < COMPONENTS ==> v[i] == Component(p, i) && w[i] == Component(q, i);
    if |p| < COMPONENTS {
      assert Pad(p + [0]) == Pad(p);
    }
    if v[0] < w[0] {
      assert Component(p, 0) < Component(q, 0);
    } else if v[0] == w[0] && v[1] < w[1] {
      assert Component(p, 1) < Component(q, 1);
    } else if v[0] == w[0] && v[1] == w[1] && v[2] < w[2] {
      assert Component(p, 2) < Component(q, 2);
    } else if v[0] == w[0] && v[1] == w[1] && v[2] == w[2] && v[3] < w[3] {
      assert Component(p, 3) < Component(q, 3);
    }
    if v[0] == w[0] && v[1] == w[1] && v[2] == w[2] && v[3] == w[3] {
      assert v == w;
    }
  }
}
