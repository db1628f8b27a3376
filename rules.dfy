/** The rule table shared by both implementations: a flat array of
    `{who, to, distance, attraction}` records searched with `rules.find` on the
    ordered pair of groups. The attraction's type differs between the two
    implementations, so it is a type parameter here. */
module Rules {
  import opened Common
  import opened Particles

  /** The value of a rule record at one moment. */
  datatype RuleValue<A> = RuleValue(who: Group, to: Group, distance: real, attraction: A)

  /** A rule record. `who` and `to` are never reassigned; the control panel
      and `randomizeRules` overwrite `distance` and `attraction` in place. */
  class Rule<A> {
    const who: Group
    const to: Group
    var distance: real
    var attraction: A

    constructor (who: Group, to: Group, distance: real, attraction: A)
      ensures Value() == RuleValue(who, to, distance, attraction)
    {
      this.who, this.to := who, to;
      this.distance, this.attraction := distance, attraction;
    }

    function Value(): RuleValue<A>
      reads this
    {
      RuleValue(who, to, distance, attraction)
    }
  }

  /** The records of a rule array, element by element. */
  function Snapshot<A>(rs: seq<Rule<A>>): seq<RuleValue<A>>
    reads rs
  {
    seq(|rs|, k requires 0 <= k < |rs| reads rs => rs[k].Value())
  }

  /** The predicate handed to `rules.find`. */
  predicate Matches<A>(r: RuleValue<A>, who: Group, to: Group) {
    r.who == who && r.to == to
  }

  /** `rules.find((r) => r.who === who && r.to === to)`, as the index of the
      rule it returns; `None` is `undefined`. */
  function Find<A>(t: seq<RuleValue<A>>, who: Group, to: Group): (r: Option<nat>)
    ensures r.Some? ==> r.value < |t| && Matches(t[r.value], who, to)
    ensures r.Some? ==> forall k :: 0 <= k < r.value ==> !Matches(t[k], who, to)
    ensures r.None? <==> forall k :: 0 <= k < |t| ==> !Matches(t[k], who, to)
  {
    if t == [] then None
    else
      var earlier := Find(t[..|t| - 1], who, to);
      if earlier.Some? then earlier
      else if Matches(t[|t| - 1], who, to) then Some(|t| - 1)
      else None
  }

  /** The ordered pairs a table is keyed by, in table order. */
  function Keys<A>(t: seq<RuleValue<A>>): seq<(Group, Group)> {
    seq(|t|, k requires 0 <= k < |t| => (t[k].who, t[k].to))
  }

  /** No ordered pair has two rules. */
  predicate KeysUnique<A>(t: seq<RuleValue<A>>) {
    forall i, j :: 0 <= i < j < |t| ==> Keys(t)[i] != Keys(t)[j]
  }

  /** In a table without duplicate pairs, the rule `find` returns is the only
      rule for that pair. */
  lemma FindUnique<A>(t: seq<RuleValue<A>>, who: Group, to: Group, k: nat)
    requires KeysUnique(t)
    requires k < |t| && Matches(t[k], who, to)
    ensures Find(t, who, to) == Some(k)
  {
    var r := Find(t, who, to);
    assert r.Some?;
    assert Keys(t)[r.value] == (who, to) == Keys(t)[k];
  }

  /** `find` looks at nothing but the pairs: two tables with the same keys
      give the same answer for every pair. */
  lemma {:induction false} FindSameKeys<A, B>(t: seq<RuleValue<A>>, u: seq<RuleValue<B>>, who: Group, to: Group)
    requires Keys(t) == Keys(u)
    ensures Find(t, who, to) == Find(u, who, to)
  {
    assert |t| == |Keys(t)| == |u|;
    if t != [] {
      var n := |t| - 1;
      assert Keys(t[..n]) == Keys(u[..n]) by {
        forall k | 0 <= k < n ensures Keys(t[..n])[k] == Keys(u[..n])[k] {
          assert Keys(t)[k] == Keys(u)[k];
        }
      }
      FindSameKeys(t[..n], u[..n], who, to);
      assert Keys(t)[n] == Keys(u)[n];
    }
  }
}
