/**
 * The value-to-member lookup behind a string-valued enumeration: calling the
 * enumeration with a string yields the member declared with that value, and
 * any other string is rejected.
 */
module TagLookup {
  import opened Wrappers

  /**
   * Searches `members` in declaration order for one whose tag is `s`.
   * The result is the FIRST such member, which is how an enumeration
   * resolves two members declared with the same value.
   */
  function FindByTag<T(==)>(members: seq<T>, tag: T -> string, s: string): (r: Option<T>)
    ensures r.None? <==> forall m :: m in members ==> tag(m) != s
    ensures r.Some? ==> exists i :: 0 <= i < |members| && members[i] == r.value && tag(r.value) == s &&
                                     forall j :: 0 <= j < i ==> tag(members[j]) != s
  {
    if members == [] then None
    else if tag(members[0]) == s then Some(members[0])
    else
      var r := FindByTag(members[1..], tag, s);
      assert forall m :: m in members[1..] ==> m in members;
      if r.Some? then
        ghost var i :| 0 <= i < |members[1..]| && members[1..][i] == r.value && tag(r.value) == s &&
                       forall j :: 0 <= j < i ==> tag(members[1..][j]) != s;
        assert members[i + 1] == r.value;
        assert forall j :: 0 <= j < i + 1 ==> tag(members[j]) != s by {
          forall j | 0 <= j < i + 1 ensures tag(members[j]) != s {
            if j > 0 { assert members[j] == members[1..][j - 1]; }
          }
        }
        r
      else r
  }
}
