/** Transcripts kept under composite string keys, and the ids of the threads a
    node has when it names none. */
module MessageStores {
  const KEY_SEP := '\0'

  predicate Without(s: string, c: char) {
    forall k :: 0 <= k < |s| ==> s[k] != c
  }

  function MakeKey(run: string, thread: string): string {
    run + [KEY_SEP] + thread
  }

  /** Two texts split at the first separator split alike. */
  lemma FirstSplit(a: string, s: string, b: string, t: string, c: char)
    requires Without(a, c) && Without(b, c) && a + [c] + s == b + [c] + t
    ensures a == b && s == t
  {
    var x := a + [c] + s;
    assert x == b + [c] + t && x[|a|] == c && x[|b|] == c;
    assert forall k :: 0 <= k < |a| ==> x[k] == a[k] != c;
    assert forall k :: 0 <= k < |b| ==> x[k] == b[k] != c;
    assert a == x[..|a|] && b == x[..|b|] && s == x[|a| + 1..] && t == x[|b| + 1..];
  }

  /** And at the last. */
  lemma LastSplit(a: string, s: string, b: string, t: string, c: char)
    requires Without(s, c) && Without(t, c) && a + [c] + s == b + [c] + t
    ensures a == b && s == t
  {
    var x := a + [c] + s;
    assert x == b + [c] + t && x[|a|] == c && x[|b|] == c;
    assert forall k :: |a| < k < |x| ==> x[k] == s[k - |a| - 1] != c;
    assert forall k :: |b| < k < |x| ==> x[k] == t[k - |b| - 1] != c;
    assert a == x[..|a|] && b == x[..|b|] && s == x[|a| + 1..] && t == x[|b| + 1..];
  }

  /** The composite key is unambiguous for run ids without the separator,
      whatever the thread ids are; a run id with one can collide. */
  lemma KeysDistinct(run: string, thread: string, run2: string, thread2: string)
    ensures Without(run, KEY_SEP) && Without(run2, KEY_SEP) && MakeKey(run, thread) == MakeKey(run2, thread2)
            ==> run == run2 && thread == thread2
    ensures MakeKey(run + [KEY_SEP] + run2, thread) == MakeKey(run, run2 + [KEY_SEP] + thread)
  {
    if Without(run, KEY_SEP) && Without(run2, KEY_SEP) && MakeKey(run, thread) == MakeKey(run2, thread2) {
      FirstSplit(run, thread, run2, thread2, KEY_SEP);
    }
    assert MakeKey(run + [KEY_SEP] + run2, thread) == MakeKey(run, run2 + [KEY_SEP] + thread);
  }

  /** Where the first separator is, or the length. */
  function IndexOf(key: string, from: nat): (i: nat)
    requires from <= |key|
    ensures from <= i <= |key| && (i < |key| ==> key[i] == KEY_SEP)
    ensures forall k :: from <= k < i ==> key[k] != KEY_SEP
    decreases |key| - from
  {
    if from == |key| || key[from] == KEY_SEP then from else IndexOf(key, from + 1)
  }

  type Transcript = seq<string>

  /** What a stored value may be in a snapshot. */
  datatype Stored = Messages(messages: Transcript) | Junk

  class MessageStore {
    var data: map<string, Transcript>

    constructor ()
      ensures data == map[]
    {
      data := map[];
    }

    /** The store as a partial map on (run, thread) pairs. */
    function At(run: string, thread: string): Transcript
      reads this
    {
      if MakeKey(run, thread) in data then data[MakeKey(run, thread)] else []
    }

    predicate Has(run: string, thread: string)
      reads this
    {
      MakeKey(run, thread) in data
    }

    /** No entry of another pair is touched. */
    twostate predicate OthersKept(run: string, thread: string)
      reads this
    {
      forall r, t :: Without(r, KEY_SEP) && (r != run || t != thread) ==>
        Has(r, t) == old(Has(r, t)) && At(r, t) == old(At(r, t))
    }

    method Get(run: string, thread: string) returns (messages: Transcript)
      ensures messages == At(run, thread)
    {
      var key := MakeKey(run, thread);
      messages := if key in data then data[key] else [];
    }

    method Put(run: string, thread: string, messages: Transcript)
      modifies this
      ensures Has(run, thread) && At(run, thread) == messages
      ensures Without(run, KEY_SEP) ==> OthersKept(run, thread)
    {
      data := data[MakeKey(run, thread) := messages];
      KeysApart(run, thread);
    }

    method Delete(run: string, thread: string)
      modifies this
      ensures !Has(run, thread)
      ensures Without(run, KEY_SEP) ==> OthersKept(run, thread)
    {
      data := data - {MakeKey(run, thread)};
      KeysApart(run, thread);
    }

    lemma KeysApart(run: string, thread: string)
      ensures Without(run, KEY_SEP) ==>
                forall r, t :: Without(r, KEY_SEP) && (r != run || t != thread) ==>
                  MakeKey(r, t) != MakeKey(run, thread)
    {
      forall r, t | Without(run, KEY_SEP) && Without(r, KEY_SEP) && (r != run || t != thread)
        ensures MakeKey(r, t) != MakeKey(run, thread)
      {
        KeysDistinct(r, t, run, thread);
      }
    }

    /** Every thread of the run goes, and of no other run. */
    method ClearRun(run: string)
      modifies this
      ensures forall t :: !Has(run, t)
      ensures Without(run, KEY_SEP) ==>
                forall r, t :: Without(r, KEY_SEP) && r != run ==>
                  Has(r, t) == old(Has(r, t)) && At(r, t) == old(At(r, t))
    {
      var prefix := run + [KEY_SEP];
      var todo := data.Keys;
      while todo != {}
        invariant todo <= old(data).Keys
        invariant forall k :: k in data <==> k in old(data) && (k in todo || !(prefix <= k))
        invariant forall k :: k in data ==> data[k] == old(data)[k]
      {
        var key :| key in todo;
        todo := todo - {key};
        if prefix <= key {
          data := data - {key};
        }
      }
      forall t ensures !Has(run, t) {
        assert prefix <= MakeKey(run, t);
      }
      forall r, t | Without(run, KEY_SEP) && Without(r, KEY_SEP) && r != run ensures !(prefix <= MakeKey(r, t)) {
        if prefix <= MakeKey(r, t) {
          var rest := MakeKey(r, t)[|prefix|..];
          assert MakeKey(r, t) == run + [KEY_SEP] + rest;
          FirstSplit(r, t, run, rest, KEY_SEP);
          assert false;
        }
      }
    }

    /** The pairs in the store, each key split at its first separator. */
    method Keys() returns (pairs: set<(string, string)>)
      ensures forall r, t :: Without(r, KEY_SEP) ==> ((r, t) in pairs <==> Has(r, t))
    {
      pairs := {};
      var todo := data.Keys;
      while todo != {}
        invariant todo <= data.Keys
        invariant forall p :: p in pairs ==> Without(p.0, KEY_SEP) && MakeKey(p.0, p.1) in data.Keys - todo
        invariant forall r, t :: Without(r, KEY_SEP) && MakeKey(r, t) in data.Keys - todo ==> (r, t) in pairs
      {
        var key :| key in todo;
        var sep := IndexOf(key, 0);
        if sep < |key| {
          assert key == MakeKey(key[..sep], key[sep + 1..]);
          pairs := pairs + {(key[..sep], key[sep + 1..])};
          forall r, t | Without(r, KEY_SEP) && MakeKey(r, t) == key ensures (r, t) == (key[..sep], key[sep + 1..]) {
            FirstSplit(r, t, key[..sep], key[sep + 1..], KEY_SEP);
          }
        } else {
          assert forall r, t :: MakeKey(r, t) == key ==> key[|r|] == KEY_SEP;
        }
        todo := todo - {key};
      }
    }

    method Serialise() returns (snapshot: map<string, Stored>)
      ensures snapshot == map k | k in data :: Messages(data[k])
    {
      snapshot := map k | k in data :: Messages(data[k]);
    }

    /** Replace the contents by a snapshot; what is not a transcript is skipped. */
    method Hydrate(snapshot: map<string, Stored>)
      modifies this
      ensures data == map k | k in snapshot && snapshot[k].Messages? :: snapshot[k].messages
    {
      data := map[];
      var todo := snapshot.Keys;
      while todo != {}
        invariant todo <= snapshot.Keys
        invariant data == map k | k in snapshot && k !in todo && snapshot[k].Messages? :: snapshot[k].messages
      {
        var key :| key in todo;
        todo := todo - {key};
        if snapshot[key].Messages? {
          data := data[key := snapshot[key].messages];
        }
      }
    }
  }

  /** A store hydrated from another's snapshot is that store, whatever it held. */
  method Resume(from: MessageStore, into: MessageStore)
    requires from != into
    modifies into
    ensures into.data == from.data
  {
    var snapshot := from.Serialise();
    into.Hydrate(snapshot);
  }

  // ---------- synthetic threads ----------

  const SYNTHETIC_THREAD_PREFIX := "\0node:"

  function Decimal(n: nat): string {
    (if n < 10 then "" else Decimal(n / 10)) + [('0' as int + n % 10) as char]
  }

  function SyntheticThreadId(node: string, iteration: nat, pass: nat): string {
    var base := SYNTHETIC_THREAD_PREFIX + node + ['#'] + Decimal(iteration);
    if pass > 0 then base + "~p" + Decimal(pass) else base
  }

  function ValueOf(s: string): int {
    if s == "" then 0 else 10 * ValueOf(s[..|s| - 1]) + (s[|s| - 1] as int - '0' as int)
  }

  lemma {:induction false} DecimalValue(n: nat)
    ensures ValueOf(Decimal(n)) == n
  {
    var d := Decimal(n);
    assert d != "" && d[|d| - 1] as int == '0' as int + n % 10;
    if n >= 10 {
      DecimalValue(n / 10);
      assert d[..|d| - 1] == Decimal(n / 10);
    } else {
      assert d[..|d| - 1] == "";
    }
  }

  lemma {:induction false} DecimalDigits(n: nat)
    ensures forall k :: 0 <= k < |Decimal(n)| ==> '0' <= Decimal(n)[k] <= '9'
  {
    if n >= 10 {
      DecimalDigits(n / 10);
    }
  }

  function Tail(iteration: nat, pass: nat): string {
    Decimal(iteration) + if pass > 0 then ['~'] + ("p" + Decimal(pass)) else []
  }

  lemma TailInjective(iteration: nat, pass: nat, iteration2: nat, pass2: nat)
    requires Tail(iteration, pass) == Tail(iteration2, pass2)
    ensures iteration == iteration2 && pass == pass2
  {
    var t, d, e := Tail(iteration, pass), Decimal(iteration), Decimal(iteration2);
    DecimalDigits(iteration);
    DecimalDigits(iteration2);
    DecimalValue(iteration);
    DecimalValue(iteration2);
    assert pass > 0 ==> t[|d|] == '~';
    assert pass2 > 0 ==> t[|e|] == '~';
    if pass > 0 && pass2 > 0 {
      SuffixInjective(d, pass, e, pass2);
    } else {
      assert pass == 0 ==> t == d;
      assert pass2 == 0 ==> t == e;
    }
  }

  lemma SuffixInjective(d: string, pass: nat, e: string, pass2: nat)
    requires Without(d, '~') && Without(e, '~')
    requires d + (['~'] + ("p" + Decimal(pass))) == e + (['~'] + ("p" + Decimal(pass2)))
    ensures d == e && pass == pass2
  {
    var p, q := "p" + Decimal(pass), "p" + Decimal(pass2);
    assert d + ['~'] + p == d + (['~'] + p) && e + ['~'] + q == e + (['~'] + q);
    FirstSplit(d, p, e, q, '~');
    assert p[1..] == Decimal(pass) && q[1..] == Decimal(pass2);
    DecimalValue(pass);
    DecimalValue(pass2);
  }

  /** Two dispatches have the same synthetic thread exactly if they are the same
      node, iteration and pass, whatever characters node ids hold. */
  lemma SyntheticThreadInjective(node: string, iteration: nat, pass: nat, node2: string, iteration2: nat, pass2: nat)
    ensures SyntheticThreadId(node, iteration, pass) == SyntheticThreadId(node2, iteration2, pass2)
            <==> node == node2 && iteration == iteration2 && pass == pass2
  {
    var id := SyntheticThreadId(node, iteration, pass);
    if id == SyntheticThreadId(node2, iteration2, pass2) {
      var a, b := SYNTHETIC_THREAD_PREFIX + node, SYNTHETIC_THREAD_PREFIX + node2;
      assert id == a + ['#'] + Tail(iteration, pass);
      assert id == b + ['#'] + Tail(iteration2, pass2);
      TailClean(iteration, pass);
      TailClean(iteration2, pass2);
      LastSplit(a, Tail(iteration, pass), b, Tail(iteration2, pass2), '#');
      TailInjective(iteration, pass, iteration2, pass2);
      assert a[|SYNTHETIC_THREAD_PREFIX|..] == node && b[|SYNTHETIC_THREAD_PREFIX|..] == node2;
    }
  }

  /** The first pass's thread is named by node and iteration alone, and a later
      pass's is that with the pass behind it. */
  lemma ThreadOfPass(node: string, iteration: nat, pass: nat)
    ensures SyntheticThreadId(node, iteration, 0) == "\0node:" + node + "#" + Decimal(iteration)
    ensures pass > 0 ==>
              SyntheticThreadId(node, iteration, pass) == SyntheticThreadId(node, iteration, 0) + "~p" + Decimal(pass)
    ensures ValueOf(Decimal(iteration)) == iteration && ValueOf(Decimal(pass)) == pass
  {
    DecimalValue(iteration);
    DecimalValue(pass);
    assert ['#'] == "#";
  }

  lemma TailClean(iteration: nat, pass: nat)
    ensures Without(Tail(iteration, pass), '#')
  {
    DecimalDigits(iteration);
    DecimalDigits(pass);
  }
}
