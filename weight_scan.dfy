/** The two quantity patterns of `Cat.parse_weight`:
      ([0-9]+)\s?lbs?\.     and     ([0-9]+)\s?ozs?\.
    Each is modelled as a scanner that returns the leftmost match and its first
    group, as `re.findall(...)[0]` does, and the declarative predicate GroupAt
    says what a match is. */
module WeightScan {
  import opened Wrappers
  import opened Text

  /** The unit word of a pattern: "lb" for pounds, "oz" for ounces. */
  datatype Unit = Pounds | Ounces

  function Word(u: Unit): string
  {
    match u
    case Pounds => "lb"
    case Ounces => "oz"
  }

  /** s holds p starting at index j. */
  predicate HasAt(s: string, j: nat, p: string)
  {
    j + |p| <= |s| && s[j..j + |p|] == p
  }

  /** `W s? \.` starts at index j: the unit word, an optional "s", then a period. */
  predicate UnitAt(s: string, j: nat, u: Unit)
  {
    HasAt(s, j, Word(u) + ".") || HasAt(s, j, Word(u) + "s.")
  }

  /** `\s? W s? \.` starts at index j. */
  predicate TailAt(s: string, j: nat, u: Unit)
  {
    UnitAt(s, j, u) || (j < |s| && IsSpace(s[j]) && UnitAt(s, j + 1, u))
  }

  /** The pattern matches at index i with first group s[i..j]. */
  predicate GroupAt(s: string, i: nat, j: nat, u: Unit)
  {
    i < j <= |s| && AllDigits(s[i..j]) && TailAt(s, j, u)
  }

  /** The end of the run of digits that starts at i (greedy `[0-9]+`). */
  function RunEnd(s: string, i: nat): (j: nat)
    requires i <= |s|
    ensures i <= j <= |s| && AllDigits(s[i..j])
    ensures j < |s| ==> !IsDigit(s[j])
    decreases |s| - i
  {
    if i < |s| && IsDigit(s[i]) then RunEnd(s, i + 1) else i
  }

  /** Every run of digits starting at i ends at or before RunEnd(s, i). */
  lemma {:induction false} RunEndIsMaximal(s: string, i: nat, j: nat)
    requires i <= j <= |s| && AllDigits(s[i..j])
    ensures j <= RunEnd(s, i)
    decreases j - i
  {
    if i < j {
      assert IsDigit(s[i..j][0]);
      assert s[i + 1..j] == s[i..j][1..];
      RunEndIsMaximal(s, i + 1, j);
    }
  }

  /** The tail of a pattern starts with a space or a letter, never a digit. */
  lemma TailStartsWithNonDigit(s: string, j: nat, u: Unit)
    requires TailAt(s, j, u)
    ensures j < |s| && !IsDigit(s[j])
  {
    if UnitAt(s, j, u) {
      assert s[j] == s[j..j + 3][0];
    }
  }

  /** The group of a match is always the whole run of digits: a shorter group would
      be followed by a digit, and the tail starts with a space or a letter.  So the
      greedy `[0-9]+` never has to give anything back and the group is unique. */
  lemma GroupIsWholeRun(s: string, i: nat, j: nat, u: Unit)
    requires GroupAt(s, i, j, u)
    ensures j == RunEnd(s, i)
  {
    var e := RunEnd(s, i);
    if j < e {
      assert IsDigit(s[i..e][j - i]);
      TailStartsWithNonDigit(s, j, u);
      assert false;
    }
    RunEndIsMaximal(s, i, j);
  }

  /** No match of the pattern starts at i unless s[i] begins a digit run with a tail behind it. */
  lemma NoGroupAt(s: string, i: nat, u: Unit)
    requires i < |s|
    requires !(IsDigit(s[i]) && TailAt(s, RunEnd(s, i), u))
    ensures forall j :: !GroupAt(s, i, j, u)
  {
    forall j | GroupAt(s, i, j, u)
      ensures false
    {
      GroupIsWholeRun(s, i, j, u);
    }
  }

  /** The leftmost match starting at or after i, as (start, end of group). */
  function FindFrom(s: string, i: nat, u: Unit): (r: Option<(nat, nat)>)
    requires i <= |s|
    ensures r.Some? ==> i <= r.value.0 && GroupAt(s, r.value.0, r.value.1, u)
    ensures r.Some? ==> forall k, j :: i <= k < r.value.0 ==> !GroupAt(s, k, j, u)
    ensures r.None? ==> forall k, j :: i <= k ==> !GroupAt(s, k, j, u)
    decreases |s| - i
  {
    if i == |s| then None
    else if IsDigit(s[i]) && TailAt(s, RunEnd(s, i), u) then Some((i, RunEnd(s, i)))
    else NoGroupAt(s, i, u); FindFrom(s, i + 1, u)
  }

  /** `int((re.findall(pattern, s) + [0])[0])`: the number in the first group of the
      leftmost match, or 0 when the pattern does not match anywhere. */
  function Quantity(s: string, u: Unit): (n: nat)
  {
    match FindFrom(s, 0, u)
    case None => 0
    case Some((i, j)) => DecimalValue(s[i..j])
  }

  /** Quantity reads the leftmost match: whatever match starts first decides it. */
  lemma QuantityIsLeftmost(s: string, u: Unit, i: nat, j: nat)
    requires GroupAt(s, i, j, u)
    requires forall k: nat, e: nat :: k < i ==> !GroupAt(s, k, e, u)
    ensures Quantity(s, u) == DecimalValue(s[i..j])
  {
    var r := FindFrom(s, 0, u);
    assert r.Some?;
    var (a, b) := r.value;
    assert a == i;
    GroupIsWholeRun(s, a, b, u);
    GroupIsWholeRun(s, i, j, u);
  }

  /** Without a match the quantity defaults to 0. */
  lemma QuantityWithoutMatch(s: string, u: Unit)
    requires forall k: nat, e: nat :: !GroupAt(s, k, e, u)
    ensures Quantity(s, u) == 0
  {
  }

  // ---------------------------------------------------------------- worked examples

  lemma PoundsOfPoundsAndOunces()
    ensures Quantity("5 lbs. 3 oz.", Pounds) == 5
  {
    var s := "5 lbs. 3 oz.";
    assert RunEnd(s, 1) == 1;
    assert RunEnd(s, 0) == 1;
    assert s[2..6] == "lbs.";
    assert TailAt(s, 1, Pounds);
    assert s[0..1] == "5";
  }

  /** The ounces pattern skips the pounds part and finds "3 oz.". */
  lemma OuncesOfPoundsAndOunces()
    ensures Quantity("5 lbs. 3 oz.", Ounces) == 3
  {
    var s := "5 lbs. 3 oz.";
    assert RunEnd(s, 8) == 8;
    assert RunEnd(s, 7) == 8;
    assert s[9..12] == "oz.";
    assert FindFrom(s, 7, Ounces) == Some((7, 8));
    assert RunEnd(s, 1) == 1;
    assert RunEnd(s, 0) == 1;
    assert s[1..4][0] != "oz."[0] && s[2..5][0] != "oz."[0] && s[1..5][0] != "ozs."[0] && s[2..6][0] != "ozs."[0];
    assert !TailAt(s, 1, Ounces);
    assert FindFrom(s, 0, Ounces) == FindFrom(s, 1, Ounces);
    assert FindFrom(s, 1, Ounces) == FindFrom(s, 7, Ounces);
    assert s[7..8] == "3";
  }

  lemma PoundsOnly()
    ensures Quantity("5 lbs.", Pounds) == 5
    ensures Quantity("5 lbs.", Ounces) == 0
  {
    var s := "5 lbs.";
    assert RunEnd(s, 1) == 1;
    assert RunEnd(s, 0) == 1;
    assert s[2..6] == "lbs.";
    assert TailAt(s, 1, Pounds);
    assert s[0..1] == "5";
    assert s[1..4][0] != "oz."[0] && s[2..5][0] != "oz."[0] && s[1..5][0] != "ozs."[0] && s[2..6][0] != "ozs."[0];
    assert !TailAt(s, 1, Ounces);
    assert FindFrom(s, 0, Ounces) == None;
  }

  /** The period is part of the pattern: "5 lbs" has no pounds. */
  lemma PeriodIsRequired()
    ensures Quantity("5 lbs", Pounds) == 0
  {
    var s := "5 lbs";
    assert RunEnd(s, 1) == 1;
    assert RunEnd(s, 0) == 1;
    assert s[1..4][0] != "lb."[0] && s[2..5][2] != "lb."[2] && s[1..5][0] != "lbs."[0];
    assert !TailAt(s, 1, Pounds);
    assert FindFrom(s, 0, Pounds) == None;
  }
}
