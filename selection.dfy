/** The two selection lists of the client (symptom ids and allergy ids) and
    the toggle that both `toggleSymptom` and `toggleAllergy` apply to the
    previous list: remove the id if it is present, else append it. */
module Selection {
  import opened Wrappers

  /** `s.filter(e => e !== x)`: every occurrence of `x` dropped, the other
      elements kept in their order. */
  function RemoveAll(s: seq<string>, x: string): (r: seq<string>)
    ensures x !in r
    ensures multiset(r) == multiset(s)[x := 0]
  {
    if s == [] then []
    else
      assert s == [s[0]] + s[1..];
      if s[0] == x then RemoveAll(s[1..], x)
      else [s[0]] + RemoveAll(s[1..], x)
  }

  /** Filtering distributes over concatenation. */
  lemma {:induction false} RemoveAllAppend(a: seq<string>, b: seq<string>, x: string)
    ensures RemoveAll(a + b, x) == RemoveAll(a, x) + RemoveAll(b, x)
  {
    if a == [] {
      assert a + b == b;
    } else {
      assert (a + b)[0] == a[0];
      assert (a + b)[1..] == a[1..] + b;
      RemoveAllAppend(a[1..], b, x);
    }
  }

  /** Filtering out an id that does not occur changes nothing. */
  lemma {:induction false} RemoveAllAbsent(s: seq<string>, x: string)
    requires x !in s
    ensures RemoveAll(s, x) == s
  {
    if s != [] {
      assert s[0] != x;
      RemoveAllAbsent(s[1..], x);
      assert s == [s[0]] + s[1..];
    }
  }

  /** Filtering never introduces a duplicate. */
  lemma {:induction false} RemoveAllKeepsNoDuplicates(s: seq<string>, x: string)
    requires NoDuplicates(s)
    ensures NoDuplicates(RemoveAll(s, x))
  {
    if s != [] {
      assert NoDuplicates(s[1..]) by {
        forall i, j | 0 <= i < j < |s[1..]| ensures s[1..][i] != s[1..][j] {
          assert s[1..][i] == s[i + 1] && s[1..][j] == s[j + 1];
        }
      }
      RemoveAllKeepsNoDuplicates(s[1..], x);
      if s[0] != x {
        var rest := RemoveAll(s[1..], x);
        assert s[0] !in s[1..];
        assert s[0] !in multiset(s[1..]);
        assert s[0] !in multiset(rest);
        assert s[0] !in rest;
        forall i, j | 0 <= i < j < |[s[0]] + rest| ensures ([s[0]] + rest)[i] != ([s[0]] + rest)[j] {
          if i == 0 {
            assert ([s[0]] + rest)[j] == rest[j - 1];
          } else {
            assert ([s[0]] + rest)[i] == rest[i - 1] && ([s[0]] + rest)[j] == rest[j - 1];
          }
        }
      }
    }
  }

  /** The toggle of `toggleSymptom` / `toggleAllergy`: an absent id is
      appended at the end, a present id loses every occurrence; in both
      cases the other ids and their relative order are exactly as before,
      and a duplicate-free list stays duplicate-free. */
  function Toggle(prev: seq<string>, id: string): (next: seq<string>)
    ensures id in next <==> id !in prev
    ensures id !in prev ==> next == prev + [id]
    ensures id in prev ==> multiset(next) == multiset(prev)[id := 0]
    ensures RemoveAll(next, id) == RemoveAll(prev, id)
    ensures NoDuplicates(prev) ==> NoDuplicates(next)
  {
    if id in prev then
      var r := RemoveAll(prev, id);
      RemoveAllAbsent(r, id);
      assert NoDuplicates(prev) ==> NoDuplicates(r) by {
        if NoDuplicates(prev) { RemoveAllKeepsNoDuplicates(prev, id); }
      }
      r
    else
      RemoveAllAppend(prev, [id], id);
      RemoveAllAbsent(prev, id);
      assert RemoveAll([id], id) == [] by {
        assert [id][1..] == [];
      }
      prev + [id]
  }

  /** Toggling an absent id twice gives back exactly the original list. */
  lemma ToggleTwiceAbsent(prev: seq<string>, id: string)
    requires id !in prev
    ensures Toggle(Toggle(prev, id), id) == prev
  {
    var once := Toggle(prev, id);
    assert once == prev + [id];
    RemoveAllAppend(prev, [id], id);
    RemoveAllAbsent(prev, id);
    assert [id][1..] == [];
  }

  /** Toggling a present id twice restores the same set of ids, but the id
      now sits at the end and only once. */
  lemma ToggleTwicePresent(prev: seq<string>, id: string)
    requires id in prev
    ensures Toggle(Toggle(prev, id), id) == RemoveAll(prev, id) + [id]
    ensures forall y :: y in Toggle(Toggle(prev, id), id) <==> y in prev
  {
    var once := Toggle(prev, id);
    var twice := Toggle(once, id);
    forall y
      ensures y in twice <==> y in prev
    {
      if y != id {
        assert multiset(once)[y] == multiset(prev)[y];
        assert y in once <==> y in prev;
      }
    }
  }

  /** The double toggle of a present id is not always the identity: the
      id moves to the end. */
  lemma ToggleTwiceMovesPresentId()
    ensures Toggle(Toggle(["fever", "cough"], "fever"), "fever") == ["cough", "fever"]
  {
    ToggleTwicePresent(["fever", "cough"], "fever");
    assert RemoveAll(["fever", "cough"], "fever") == ["cough"] by {
      assert ["fever", "cough"][1..] == ["cough"];
      assert ["cough"][1..] == [];
    }
  }
}
