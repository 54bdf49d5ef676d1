/** Leadership goes round: one member after the other in key order. */
module Leaders {
  import opened Committees
  import opened Nodes

  /** The next member in key order, from the largest key back to the smallest. */
  ghost predicate Follows(c: Committee, x: PublicKey, y: PublicKey) {
    && y in c.Members()
    && if exists z :: z in c.Members() && z > x then y > x && forall z | z in c.Members() && z > x :: y <= z
       else forall z | z in c.Members() :: y <= z
  }

  ghost predicate Smallest(c: Committee, y: PublicKey) {
    y in c.Members() && forall z | z in c.Members() :: y <= z
  }

  lemma MemberAt(c: Committee, x: PublicKey) returns (i: nat)
    requires x in c.Members()
    ensures i < |c.authorities| && c.authorities[i].name == x
  {
    i :| 0 <= i < |c.authorities| && c.authorities[i].name == x;
  }

  /** The first epoch belongs to the smallest key. */
  lemma FirstLeader(c: Committee)
    requires ValidCommittee(c)
    ensures Smallest(c, LeaderOf(c, 0))
  {
    assert LeaderOf(c, 0) == c.authorities[0].name;
  }

  lemma Spread(p: nat, q: nat, size: nat)
    requires p < q
    ensures q * size >= p * size + size
  {
    assert q * size == p * size + size + (q - p - 1) * size;
  }

  lemma Divides(a: nat, q: nat, r: nat, size: nat)
    requires size > 0 && a == q * size + r && r < size
    ensures a % size == r
  {
    var p := a / size;
    assert a == p * size + a % size;
    if p < q {
      Spread(p, q, size);
    } else if q < p {
      Spread(q, p, size);
    }
  }

  lemma NextIndex(epoch: nat, size: nat)
    requires size > 0
    ensures (epoch + 1) % size == if epoch % size + 1 < size then epoch % size + 1 else 0
  {
    var q, r := epoch / size, epoch % size;
    assert epoch == q * size + r;
    if r + 1 < size {
      Divides(epoch + 1, q, r + 1, size);
    } else {
      assert (q + 1) * size == q * size + size;
      Divides(epoch + 1, q + 1, 0, size);
    }
  }

  /** From one epoch to the next leadership passes to the next member in key order. */
  lemma NextLeader(c: Committee, epoch: nat)
    requires ValidCommittee(c)
    ensures Follows(c, LeaderOf(c, epoch), LeaderOf(c, epoch + 1))
  {
    var a, i := c.authorities, epoch % |c.authorities|;
    NextIndex(epoch, |a|);
    if i + 1 < |a| {
      assert a[i + 1].name in c.Members() && a[i + 1].name > a[i].name;
      forall z | z in c.Members() && z > a[i].name ensures a[i + 1].name <= z {
        var j := MemberAt(c, z);
        assert j > i;
      }
    } else {
      forall z | z in c.Members() ensures z <= a[i].name && a[0].name <= z {
        var j := MemberAt(c, z);
        assert j <= i;
      }
    }
  }

  ghost predicate LeadsIn(c: Committee, x: PublicKey, from: nat, e: nat) {
    from <= e < from + |c.Members()| && LeaderOf(c, e) == x
  }

  /** In as many consecutive epochs as there are members, each member leads exactly once. */
  lemma EachLeadsOnce(c: Committee, from: nat, x: PublicKey)
    requires ValidCommittee(c) && x in c.Members()
    ensures exists e :: LeadsIn(c, x, from, e) && forall e' | LeadsIn(c, x, from, e') :: e' == e
  {
    MembersCounted(c.authorities);
    var i := MemberAt(c, x);
    var e := IndexComes(from, i, |c.authorities|);
    assert LeadsIn(c, x, from, e);
    forall e' | LeadsIn(c, x, from, e') ensures e' == e {
      SameLeader(c, e', i);
      SameIndex(e, e', |c.authorities|);
    }
  }

  lemma IndexComes(from: nat, i: nat, size: nat) returns (e: nat)
    requires i < size
    ensures from <= e < from + size && e % size == i
  {
    var q := from / size;
    assert from == q * size + from % size;
    if from % size <= i {
      e := q * size + i;
      Divides(e, q, i, size);
    } else {
      e := (q + 1) * size + i;
      assert (q + 1) * size == q * size + size;
      Divides(e, q + 1, i, size);
    }
  }

  lemma SameLeader(c: Committee, e: nat, i: nat)
    requires ValidCommittee(c) && i < |c.authorities| && LeaderOf(c, e) == c.authorities[i].name
    ensures e % |c.authorities| == i
  {}

  lemma SameIndex(a: nat, b: nat, size: nat)
    requires size > 0 && a % size == b % size && a < b + size && b < a + size
    ensures a == b
  {
    var p, q := a / size, b / size;
    assert a == p * size + a % size && b == q * size + b % size;
    if p < q {
      Spread(p, q, size);
    } else if q < p {
      Spread(q, p, size);
    }
  }

  /** The committee lists each member once, so there are as many epochs as members. */
  lemma {:induction false} MembersCounted(authorities: seq<Authority>)
    requires forall i, j :: 0 <= i < j < |authorities| ==> authorities[i].name < authorities[j].name
    ensures |set i | 0 <= i < |authorities| :: authorities[i].name| == |authorities|
    decreases |authorities|
  {
    if authorities != [] {
      var n := |authorities| - 1;
      MembersCounted(authorities[..n]);
      var s := set i | 0 <= i < n :: authorities[..n][i].name;
      assert s == set i | 0 <= i < n :: authorities[i].name;
      assert (set i | 0 <= i < |authorities| :: authorities[i].name) == s + {authorities[n].name};
      assert authorities[n].name !in s;
    }
  }
}
