/** Operations on the ordered sequence of client records that both stores
    keep: first-match lookups, removal by id, a patch or a child entry applied
    to the first record with a given id, and the id-uniqueness invariant. */
module Table {
  import opened Records

  /** `findIndex(pred)`: the index of the first record that satisfies `pred`. */
  function FirstIndex(cs: seq<Client>, pred: Client -> bool): (r: Option<nat>)
    ensures r.Some? ==> r.value < |cs| && pred(cs[r.value])
    ensures r.Some? ==> forall j :: 0 <= j < r.value ==> !pred(cs[j])
    ensures r.None? ==> forall j :: 0 <= j < |cs| ==> !pred(cs[j])
  {
    if cs == [] then None
    else if pred(cs[0]) then Some(0)
    else match FirstIndex(cs[1..], pred)
      case None => None
      case Some(k) => Some(k + 1)
  }

  /** `findIndex(c => c.id === id)`. */
  function IndexOf(cs: seq<Client>, id: string): (r: Option<nat>)
    ensures r.Some? ==> r.value < |cs| && cs[r.value].id == id
    ensures r.Some? ==> forall j :: 0 <= j < r.value ==> cs[j].id != id
    ensures r.None? <==> forall j :: 0 <= j < |cs| ==> cs[j].id != id
  {
    FirstIndex(cs, (c: Client) => c.id == id)
  }

  /** `find(c => c.id === id)`: the first record with that id, if any. */
  function FindById(cs: seq<Client>, id: string): (r: Option<Client>)
    ensures r.None? <==> forall j :: 0 <= j < |cs| ==> cs[j].id != id
    ensures r.Some? ==> exists i :: 0 <= i < |cs| && cs[i] == r.value && r.value.id == id
                                    && forall j :: 0 <= j < i ==> cs[j].id != id
  {
    match IndexOf(cs, id)
    case None => None
    case Some(i) => Some(cs[i])
  }

  /** `find(c => c.email === email && c.<cred> === cred)`: the first record
      whose email and credential both equal the inputs. */
  function FindByCred(cs: seq<Client>, email: string, cred: string): (r: Option<Client>)
    ensures r.None? <==> forall j :: 0 <= j < |cs| ==> !(cs[j].email == email && cs[j].cred == cred)
    ensures r.Some? ==> exists i :: 0 <= i < |cs| && cs[i] == r.value
                                    && r.value.email == email && r.value.cred == cred
                                    && forall j :: 0 <= j < i ==> !(cs[j].email == email && cs[j].cred == cred)
  {
    match FirstIndex(cs, (c: Client) => c.email == email && c.cred == cred)
    case None => None
    case Some(i) => Some(cs[i])
  }

  /** `filter(c => c.id !== id)`. */
  function Without(cs: seq<Client>, id: string): (r: seq<Client>)
    ensures |r| <= |cs|
    ensures forall c :: c in r <==> c in cs && c.id != id
  {
    if cs == [] then []
    else if cs[0].id == id then Without(cs[1..], id)
    else [cs[0]] + Without(cs[1..], id)
  }

  /** Every record with another id is kept, as many times as it occurs. */
  lemma {:induction false} WithoutKeepsOthers(cs: seq<Client>, id: string, c: Client)
    requires c.id != id
    ensures multiset(Without(cs, id))[c] == multiset(cs)[c]
  {
    if cs != [] {
      assert cs == [cs[0]] + cs[1..];
      WithoutKeepsOthers(cs[1..], id, c);
    }
  }

  /** Removing an id that no record carries leaves the table as it was. */
  lemma {:induction false} WithoutAbsent(cs: seq<Client>, id: string)
    requires forall j :: 0 <= j < |cs| ==> cs[j].id != id
    ensures Without(cs, id) == cs
  {
    if cs != [] {
      WithoutAbsent(cs[1..], id);
    }
  }

  /** Removing twice is removing once. */
  lemma WithoutIdempotent(cs: seq<Client>, id: string)
    ensures Without(Without(cs, id), id) == Without(cs, id)
  {
    var r := Without(cs, id);
    forall j | 0 <= j < |r| ensures r[j].id != id {
      assert r[j] in r;
    }
    WithoutAbsent(r, id);
  }

  /** Removal works piecewise, so the kept records stay in their order. */
  lemma {:induction false} WithoutAppend(a: seq<Client>, b: seq<Client>, id: string)
    ensures Without(a + b, id) == Without(a, id) + Without(b, id)
  {
    if a == [] {
      assert a + b == b;
    } else {
      assert (a + b)[0] == a[0] && (a + b)[1..] == a[1..] + b;
      WithoutAppend(a[1..], b, id);
    }
  }

  /** Every record id in the table is different. */
  predicate UniqueIds(cs: seq<Client>) {
    forall i, j :: 0 <= i < j < |cs| ==> cs[i].id != cs[j].id
  }

  predicate Fresh(cs: seq<Client>, id: string) {
    forall j :: 0 <= j < |cs| ==> cs[j].id != id
  }

  /** Appending a record with a fresh id keeps the ids unique, and the new
      record is then the one found by its id. */
  lemma AppendFresh(cs: seq<Client>, c: Client)
    requires UniqueIds(cs) && Fresh(cs, c.id)
    ensures UniqueIds(cs + [c])
    ensures FindById(cs + [c], c.id) == Some(c)
  {
    var t := cs + [c];
    assert t[|cs|] == c;
    assert forall j :: 0 <= j < |cs| ==> t[j] == cs[j];
    assert IndexOf(t, c.id) == Some(|cs|);
  }

  /** Removal keeps the ids unique. */
  lemma {:induction false} WithoutUnique(cs: seq<Client>, id: string)
    requires UniqueIds(cs)
    ensures UniqueIds(Without(cs, id))
  {
    if cs != [] {
      var tail := cs[1..];
      assert UniqueIds(tail) by {
        forall i, j | 0 <= i < j < |tail| ensures tail[i].id != tail[j].id {
          assert tail[i] == cs[i + 1] && tail[j] == cs[j + 1];
        }
      }
      WithoutUnique(tail, id);
      if cs[0].id != id {
        var r := Without(cs, id);
        var rt := Without(tail, id);
        assert r == [cs[0]] + rt;
        forall j | 0 <= j < |rt| ensures rt[j].id != cs[0].id {
          assert rt[j] in tail;
          var k :| 0 <= k < |tail| && tail[k] == rt[j];
          assert cs[k + 1] == rt[j];
        }
      }
    }
  }

  /** The patch applied to the first record with the id, as `update` does:
      `all[idx] = { ...all[idx], ...patch }`. */
  function UpdateAt(cs: seq<Client>, id: string, p: Patch): (r: seq<Client>)
    ensures |r| == |cs|
    ensures IndexOf(cs, id).None? ==> r == cs
    ensures IndexOf(cs, id).Some? ==>
      var i := IndexOf(cs, id).value;
      r[i] == Merge(cs[i], p) && forall j :: 0 <= j < |cs| && j != i ==> r[j] == cs[j]
  {
    match IndexOf(cs, id)
    case None => cs
    case Some(i) => cs[i := Merge(cs[i], p)]
  }

  /** A patch that leaves the id alone keeps the ids unique. */
  lemma UpdateUnique(cs: seq<Client>, id: string, p: Patch)
    requires UniqueIds(cs) && p.id.None?
    ensures UniqueIds(UpdateAt(cs, id, p))
  {
    var r := UpdateAt(cs, id, p);
    forall j | 0 <= j < |cs| ensures r[j].id == cs[j].id {
      assert Get(r[j], Id) == Get(cs[j], Id);
    }
  }

  /** A child entry unshifted onto the first record with the id; the table is
      unchanged when no record has it. */
  function AddToClient(cs: seq<Client>, id: string, e: Entry): (r: seq<Client>)
    ensures |r| == |cs|
    ensures IndexOf(cs, id).None? ==> r == cs
    ensures IndexOf(cs, id).Some? ==>
      var i := IndexOf(cs, id).value;
      r[i] == AddEntry(cs[i], e) && forall j :: 0 <= j < |cs| && j != i ==> r[j] == cs[j]
  {
    match IndexOf(cs, id)
    case None => cs
    case Some(i) => cs[i := AddEntry(cs[i], e)]
  }

  /** Adding a child entry keeps the ids unique, and the ids themselves. */
  lemma AddToClientUnique(cs: seq<Client>, id: string, e: Entry)
    requires UniqueIds(cs)
    ensures UniqueIds(AddToClient(cs, id, e))
  {
    var r := AddToClient(cs, id, e);
    forall j | 0 <= j < |cs| ensures r[j].id == cs[j].id {
      assert Get(r[j], Id) == Get(cs[j], Id);
    }
  }
}
