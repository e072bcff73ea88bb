/**
 * The `mongodb_replset` type (lib/puppet/type/mongodb_replset.rb): when a property
 * counts as in sync, and which `ensure` values it accepts.
 */
module ReplsetType {

  import opened Wrappers
  import opened Text
  import opened Collections
  import opened Ensurable

  /** `members` is in sync when `is.sort == should.sort`. */
  predicate MembersInSync(current: seq<string>, desired: seq<string>) {
    Sort(current) == Sort(desired)
  }

  /** Member lists are in sync exactly when they hold the same hosts the same number of times, in any order. */
  lemma MembersInSyncIffPermutation(current: seq<string>, desired: seq<string>)
    ensures MembersInSync(current, desired) <==> multiset(current) == multiset(desired)
  {
    SortEqualIffPermutation(current, desired);
  }

  /** The comparison is an equivalence: reflexive, symmetric and transitive. */
  lemma MembersInSyncEquivalence(a: seq<string>, b: seq<string>, c: seq<string>)
    ensures MembersInSync(a, a)
    ensures MembersInSync(a, b) ==> MembersInSync(b, a)
    ensures MembersInSync(a, b) && MembersInSync(b, c) ==> MembersInSync(a, c)
  {
  }

  /** Order does not matter, but a repeated host does. */
  lemma MembersInSyncExamples()
    ensures MembersInSync(["a:27017", "b:27017"], ["b:27017", "a:27017"])
    ensures !MembersInSync(["a:27017", "a:27017"], ["a:27017"])
  {
    MembersInSyncIffPermutation(["a:27017", "b:27017"], ["b:27017", "a:27017"]);
    MembersInSyncIffPermutation(["a:27017", "a:27017"], ["a:27017"]);
    assert multiset(["a:27017", "a:27017"])["a:27017"] == 2;
  }

  /** `admin_username` is in sync when `is.downcase == should.downcase`. */
  predicate AdminUsernameInSync(current: string, desired: string) {
    Downcase(current) == Downcase(desired)
  }

  /** In sync exactly when the two names have the same length and agree letter by letter up to ASCII case. */
  lemma AdminUsernameInSyncIff(current: string, desired: string)
    ensures AdminUsernameInSync(current, desired)
            <==> |current| == |desired| && forall i :: 0 <= i < |current| ==> LowerChar(current[i]) == LowerChar(desired[i])
  {
    if AdminUsernameInSync(current, desired) {
      assert |Downcase(current)| == |Downcase(desired)|;
      forall i | 0 <= i < |current|
        ensures LowerChar(current[i]) == LowerChar(desired[i])
      {
        assert Downcase(current)[i] == Downcase(desired)[i];
      }
    }
  }

  /**
   * `ensure`: defaults to present. The `ensurable` block declares `present` only
   * (its action is `provider.create`), so no other value is accepted.
   */
  function ResolveEnsure(declared: Option<string>): (e: Option<Ensure>)
    ensures declared.None? ==> e == Some(Present)
    ensures e.Some? ==> e.value == Present
    ensures e.Some? <==> declared.None? || declared == Some("present")
  {
    match declared
    case None => Some(Present)
    case Some(v) => if v == "present" then Some(Present) else None
  }
}
