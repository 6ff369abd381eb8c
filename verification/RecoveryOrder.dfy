/** The order by creation time, then ID, and why sorting by it has one result. */
module RecoveryOrder {
  import opened Values

  datatype Key = Key(createdAt: Time, id: string)

  /** Lexicographic order on strings. */
  predicate LessText(a: string, b: string) {
    if |b| == 0 then false
    else if |a| == 0 then true
    else if a[0] != b[0] then a[0] < b[0]
    else LessText(a[1..], b[1..])
  }

  predicate Before(a: Key, b: Key) {
    if a.createdAt != b.createdAt then a.createdAt < b.createdAt else LessText(a.id, b.id)
  }

  lemma {:induction false} LessTextIsTotal(a: string, b: string)
    ensures LessText(a, b) || LessText(b, a) || a == b
    ensures !(LessText(a, b) && LessText(b, a)) && (a == b ==> !LessText(a, b))
  {
    if |a| > 0 && |b| > 0 && a[0] == b[0] {
      LessTextIsTotal(a[1..], b[1..]);
      if a[1..] == b[1..] {
        assert a == [a[0]] + a[1..] == [b[0]] + b[1..] == b;
      }
    }
  }

  lemma {:induction false} LessTextIsTransitive(a: string, b: string, c: string)
    requires LessText(a, b) && LessText(b, c)
    ensures LessText(a, c)
  {
    if |a| > 0 && a[0] == b[0] == c[0] {
      LessTextIsTransitive(a[1..], b[1..], c[1..]);
    }
  }

  /** Keys are ordered totally: of two different ones exactly one comes first. */
  lemma BeforeIsTotal(a: Key, b: Key)
    ensures Before(a, b) || Before(b, a) || a == b
    ensures !(Before(a, b) && Before(b, a)) && (a == b ==> !Before(a, b))
  {
    LessTextIsTotal(a.id, b.id);
  }

  lemma BeforeIsTransitive(a: Key, b: Key, c: Key)
    requires Before(a, b) && Before(b, c)
    ensures Before(a, c)
  {
    if a.createdAt == b.createdAt == c.createdAt {
      LessTextIsTransitive(a.id, b.id, c.id);
    }
  }

  /** `a` comes first by the first character that differs, or by being all of the beginning of `b`. */
  ghost predicate FirstDifference(a: string, b: string, k: nat) {
    && k <= |a| && k < |b| && a[..k] == b[..k]
    && (k == |a| || a[k] < b[k])
  }

  lemma SameBeginning(a: string, b: string, k: nat)
    requires k <= |a| && k <= |b| && a[..k] == b[..k]
    ensures k > 0 ==> a[0] == b[0]
  {
    if k > 0 {
      assert a[..k][0] == b[..k][0];
    }
  }

  lemma {:induction false} LessTextIffDiffers(a: string, b: string)
    ensures LessText(a, b) <==> exists k: nat :: FirstDifference(a, b, k)
  {
    if |a| == 0 || |b| == 0 || a[0] != b[0] {
      assert LessText(a, b) ==> FirstDifference(a, b, 0);
      forall k: nat | FirstDifference(a, b, k)
        ensures LessText(a, b)
      {
        SameBeginning(a, b, k);
      }
    } else {
      LessTextIffDiffers(a[1..], b[1..]);
      if k: nat :| FirstDifference(a[1..], b[1..], k) {
        assert a[..k + 1] == [a[0]] + a[1..][..k] && b[..k + 1] == [b[0]] + b[1..][..k];
        assert FirstDifference(a, b, k + 1);
      }
      if k: nat :| FirstDifference(a, b, k) {
        assert k > 0;
        assert a[1..][..k - 1] == a[..k][1..] && b[1..][..k - 1] == b[..k][1..];
        assert FirstDifference(a[1..], b[1..], k - 1);
      }
    }
  }

  /** The older comes first; of two created at the same time, the one whose ID comes first in a dictionary. */
  lemma OlderComesFirst(a: Key, b: Key)
    ensures Before(a, b) <==>
            a.createdAt < b.createdAt || (a.createdAt == b.createdAt && exists k: nat :: FirstDifference(a.id, b.id, k))
  {
    LessTextIffDiffers(a.id, b.id);
  }

  ghost predicate Ascending(keys: seq<Key>) {
    forall i, j :: 0 <= i < j < |keys| ==> Before(keys[i], keys[j])
  }

  /** Nothing precedes the first key of an ascending sequence. */
  lemma FirstIsLeast(keys: seq<Key>, k: Key)
    requires Ascending(keys) && k in keys
    ensures k == keys[0] || Before(keys[0], k)
  {
  }

  lemma RestHasTheOthers(keys: seq<Key>, k: Key)
    requires Ascending(keys) && |keys| > 0
    ensures k in keys[1..] <==> k in keys && k != keys[0]
  {
    if k in keys[1..] {
      var i :| 0 <= i < |keys[1..]| && keys[1..][i] == k;
      assert k == keys[i + 1];
      BeforeIsTotal(keys[0], k);
    }
    if k in keys && k != keys[0] {
      var i :| 0 <= i < |keys| && keys[i] == k;
      assert k == keys[1..][i - 1];
    }
  }

  lemma SomeKey(a: seq<Key>, b: seq<Key>)
    requires forall k :: k in a ==> k in b
    ensures |a| > 0 ==> |b| > 0
  {
    if |a| > 0 {
      assert a[0] in b;
    }
  }

  /** Two ascending sequences of the same keys are the same sequence. */
  lemma {:induction false} AscendingIsUnique(a: seq<Key>, b: seq<Key>)
    requires Ascending(a) && Ascending(b)
    requires forall k :: k in a <==> k in b
    ensures a == b
  {
    SomeKey(a, b);
    SomeKey(b, a);
    if |a| > 0 {
      assert a[0] in b && b[0] in a;
      FirstIsLeast(a, b[0]);
      FirstIsLeast(b, a[0]);
      BeforeIsTotal(a[0], b[0]);
      assert a[0] == b[0];
      forall k
        ensures k in a[1..] <==> k in b[1..]
      {
        RestHasTheOthers(a, k);
        RestHasTheOthers(b, k);
      }
      AscendingIsUnique(a[1..], b[1..]);
      assert a == [a[0]] + a[1..] == [b[0]] + b[1..] == b;
    }
  }

  /** Where `key` belongs, the sequence stays ascending. */
  lemma InsertKeepsAscending(keys: seq<Key>, key: Key, at: nat)
    requires Ascending(keys) && at <= |keys| && key !in keys
    requires forall i :: 0 <= i < at ==> Before(keys[i], key)
    requires at < |keys| ==> !Before(keys[at], key)
    ensures Ascending(keys[..at] + [key] + keys[at..])
  {
    var all := keys[..at] + [key] + keys[at..];
    if at < |keys| {
      assert keys[at] in keys;
      BeforeIsTotal(keys[at], key);
      forall i | at < i < |keys|
        ensures Before(key, keys[i])
      {
        BeforeIsTransitive(key, keys[at], keys[i]);
      }
    }
    forall i, j | 0 <= i < j < |all|
      ensures Before(all[i], all[j])
    {
      assert all[i] == if i < at then keys[i] else if i == at then key else keys[i - 1];
      assert all[j] == if j < at then keys[j] else if j == at then key else keys[j - 1];
    }
  }
}
