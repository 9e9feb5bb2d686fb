/**
 Which leaves a remove commit takes out (remove_member_impl in
 mls-crypto/src/lib.rs), and what a device's own stale-leaf cleanup leaves.
 */
module Membership {
  import opened Wrappers

  type Credential = string

  /** A leaf of the ratchet tree and the credential it carries. */
  datatype Member = Member(index: nat, credential: Credential)

  datatype RemoveError = NotFound(credential: Credential)

  /** A leaf other than this device's own that carries the label. */
  predicate Targets(m: Member, own: nat, credential: Credential) {
    m.credential == credential && m.index != own
  }

  ghost predicate Listed(members: seq<Member>, own: nat, credentials: seq<Credential>, index: nat) {
    exists m, c :: m in members && c in credentials && Targets(m, own, c) && m.index == index
  }

  ghost predicate Found(members: seq<Member>, own: nat, credential: Credential) {
    exists m :: m in members && Targets(m, own, credential)
  }

  ghost predicate Distinct(s: seq<nat>) {
    forall i, j | 0 <= i < j < |s| :: s[i] != s[j]
  }

  method MatchingLeaves(members: seq<Member>, own: nat, credential: Credential) returns (matches: seq<nat>)
    ensures forall x :: x in matches <==> Listed(members, own, [credential], x)
    ensures matches == [] <==> !Found(members, own, credential)
  {
    matches := [];
    for i := 0 to |members|
      invariant forall x :: x in matches <==> Listed(members[..i], own, [credential], x)
      invariant matches == [] <==> !Found(members[..i], own, credential)
    {
      assert members[..i + 1] == members[..i] + [members[i]];
      if Targets(members[i], own, credential) {
        matches := matches + [members[i].index];
        assert members[i] in members[..i + 1] && credential in [credential];
      }
    }
    assert members[..|members|] == members;
  }

  method AddMissing(indices: seq<nat>, more: seq<nat>) returns (all: seq<nat>)
    requires Distinct(indices)
    ensures Distinct(all) && forall x :: x in all <==> x in indices || x in more
  {
    all := indices;
    for i := 0 to |more|
      invariant Distinct(all) && forall x :: x in all <==> x in indices || x in more[..i]
    {
      assert more[..i + 1] == more[..i] + [more[i]];
      if more[i] !in all { all := all + [more[i]]; }
    }
    assert more[..|more|] == more;
  }

  /**
   Every leaf carrying a listed label except this device's own, each once; an
   error exactly when a label has no such leaf, naming the first one.
   */
  method LeavesToRemove(members: seq<Member>, own: nat, credentials: seq<Credential>)
    returns (r: Result<seq<nat>, RemoveError>)
    ensures r.Ok? <==> forall c | c in credentials :: Found(members, own, c)
    ensures r.Ok? ==> Distinct(r.value) && forall x :: x in r.value <==> Listed(members, own, credentials, x)
    ensures r.Err? ==> exists k :: 0 <= k < |credentials| && r.error == NotFound(credentials[k])
                                   && !Found(members, own, credentials[k])
                                   && forall c | c in credentials[..k] :: Found(members, own, c)
  {
    var indices: seq<nat> := [];
    for k := 0 to |credentials|
      invariant forall c | c in credentials[..k] :: Found(members, own, c)
      invariant Distinct(indices) && forall x :: x in indices <==> Listed(members, own, credentials[..k], x)
    {
      var matches := MatchingLeaves(members, own, credentials[k]);
      if matches == [] { return Err(NotFound(credentials[k])); }
      ListedSplits(members, own, credentials[..k], credentials[k]);
      assert credentials[..k + 1] == credentials[..k] + [credentials[k]];
      indices := AddMissing(indices, matches);
    }
    assert credentials[..|credentials|] == credentials;
    r := Ok(indices);
  }

  lemma ListedSplits(members: seq<Member>, own: nat, credentials: seq<Credential>, c: Credential)
    ensures forall x :: Listed(members, own, credentials + [c], x)
                        <==> Listed(members, own, credentials, x) || Listed(members, own, [c], x)
  {
    forall x ensures Listed(members, own, credentials + [c], x)
                     <==> Listed(members, own, credentials, x) || Listed(members, own, [c], x) {
      if Listed(members, own, credentials, x) {
        var m, d :| m in members && d in credentials && Targets(m, own, d) && m.index == x;
        assert d in credentials + [c];
      }
      if Listed(members, own, [c], x) {
        var m, d :| m in members && d in [c] && Targets(m, own, d) && m.index == x;
        assert d in credentials + [c];
      }
    }
  }

  /** The members left when the given leaves are blanked. */
  function Without(members: seq<Member>, indices: seq<nat>): (left: seq<Member>)
    ensures forall m :: m in left <==> m in members && m.index !in indices
  {
    if members == [] then []
    else
      var rest := Without(members[1..], indices);
      assert members == [members[0]] + members[1..];
      if members[0].index in indices then rest else [members[0]] + rest
  }

  ghost predicate DistinctLeaves(members: seq<Member>) {
    forall i, j | 0 <= i < j < |members| :: members[i].index != members[j].index
  }

  function CountOf(members: seq<Member>, credential: Credential): nat {
    if members == [] then 0
    else (if members[0].credential == credential then 1 else 0) + CountOf(members[1..], credential)
  }

  lemma {:induction false} CountOne(members: seq<Member>, own: Member)
    requires DistinctLeaves(members) && own in members
    requires forall m | m in members && m.credential == own.credential :: m == own
    ensures CountOf(members, own.credential) == 1
  {
    if members[0] == own {
      assert forall m | m in members[1..] :: m != own by {
        forall m | m in members[1..] ensures m != own {
          var j :| 0 <= j < |members[1..]| && members[1..][j] == m;
          assert members[j + 1] == m;
        }
      }
      CountZero(members[1..], own.credential);
    } else {
      CountOne(members[1..], own);
    }
  }

  lemma {:induction false} CountZero(members: seq<Member>, credential: Credential)
    requires forall m | m in members :: m.credential != credential
    ensures CountOf(members, credential) == 0
  {
    if members != [] { CountZero(members[1..], credential); }
  }

  lemma {:induction false} WithoutKeepsDistinct(members: seq<Member>, indices: seq<nat>)
    requires DistinctLeaves(members)
    ensures DistinctLeaves(Without(members, indices))
  {
    if members != [] {
      WithoutKeepsDistinct(members[1..], indices);
      var rest := Without(members[1..], indices);
      forall j | 0 <= j < |rest| ensures members[0].index != rest[j].index {
        assert rest[j] in rest;
        var k :| 0 <= k < |members[1..]| && members[1..][k] == rest[j];
        assert members[k + 1] == rest[j];
      }
    }
  }

  lemma {:induction false} OwnCopyCounts(members: seq<Member>, own: Member)
    requires own in members
    ensures CountOf(members, own.credential) >= 1
  {
    if members[0] != own { OwnCopyCounts(members[1..], own); }
  }

  lemma {:induction false} SameIndexSameLeaf(members: seq<Member>, a: Member, b: Member)
    requires DistinctLeaves(members) && a in members && b in members && a.index == b.index
    ensures a == b
  {
    var i :| 0 <= i < |members| && members[i] == a;
    var j :| 0 <= j < |members| && members[j] == b;
    assert i == j;
  }

  lemma RemovesDuplicates(members: seq<Member>, own: Member, indices: seq<nat>)
    requires DistinctLeaves(members) && own in members
    requires forall x :: x in indices <==> Listed(members, own.index, [own.credential], x)
    ensures var left := Without(members, indices);
            && CountOf(left, own.credential) == 1 && own in left && DistinctLeaves(left)
            && forall m: Member | m.credential != own.credential :: m in left <==> m in members
  {
    var left := Without(members, indices);
    WithoutKeepsDistinct(members, indices);
    forall m | m in members ensures m in left <==> m == own || m.credential != own.credential {
      if m.index in indices {
        var n, c :| n in members && c in [own.credential] && Targets(n, own.index, c) && n.index == m.index;
        SameIndexSameLeaf(members, m, n);
      } else if m.credential == own.credential {
        assert own.credential in [own.credential];
        assert m.index == own.index;
        SameIndexSameLeaf(members, m, own);
      }
    }
    CountOne(left, own);
  }

  /**
   removeOwnStaleLeaves after a rejoin: removing this device's own label leaves
   exactly one leaf with it, this device's own, and every other member in place.
   */
  method RemoveOwnStaleLeaves(members: seq<Member>, own: Member) returns (left: seq<Member>)
    requires DistinctLeaves(members) && own in members
    ensures CountOf(left, own.credential) == 1 && own in left
    ensures forall m: Member | m.credential != own.credential :: m in left <==> m in members
    ensures DistinctLeaves(left)
  {
    left := members;
    OwnCopyCounts(members, own);
    if CountOf(members, own.credential) > 1 {
      var r := LeavesToRemove(members, own.index, [own.credential]);
      if r.Err? {
        CountOne(members, own);
        assert false;
      }
      left := Without(members, r.value);
      RemovesDuplicates(members, own, r.value);
    }
  }
}
