/** Counting once per idempotency key: incrementOnce of examples/native-tool-plugin/plugin.go. */
module Counter {
  import opened Prelude

  datatype Entry = Entry(value: int, revision: nat)

  // The two kinds of key; `Text` is what the plugin sends.
  datatype StateKey = CounterKey(name: string) | IdempotencyKey(digest: string) {
    function Text(): string {
      match this
      case CounterKey(name) => "counter/" + name
      case IdempotencyKey(digest) => "idempotency/" + digest
    }
  }

  // One plugin scope of the host's state store.
  type State = map<StateKey, Entry>

  // `digest` is SHA-256 in hexadecimal; `accepts` is the host's check of a state key.
  datatype Host = Host(digest: string -> string, accepts: string -> bool)

  datatype CallError = InvalidArgument | StateFailure

  // `commits` is false when the transaction cannot be committed.
  datatype Call = Call(name: string, key: string, commits: bool)

  const MAX_RECORDS := 1000

  /** No two keys are sent as the same text. */
  lemma KeyTextsDiffer(a: StateKey, b: StateKey)
    ensures a.Text() == b.Text() ==> a == b
  {
    assert "counter/"[0] == 'c' && "idempotency/"[0] == 'i';
    assert a.Text()[0] == (if a.CounterKey? then 'c' else 'i') && b.Text()[0] == (if b.CounterKey? then 'c' else 'i');
    assert a.CounterKey? ==> a.Text()[|"counter/"|..] == a.name;
    assert b.CounterKey? ==> b.Text()[|"counter/"|..] == b.name;
    assert a.IdempotencyKey? ==> a.Text()[|"idempotency/"|..] == a.digest;
    assert b.IdempotencyKey? ==> b.Text()[|"idempotency/"|..] == b.digest;
  }

  function KeyOfUse(host: Host, key: string): StateKey {
    IdempotencyKey(host.digest(key))
  }

  function Put(s: State, key: StateKey, value: int, expected: nat): Option<State> {
    if (expected == 0 && key in s) || (expected > 0 && (key !in s || s[key].revision != expected)) then None
    else if key !in s && |s| >= MAX_RECORDS then None
    else Some(s[key := Entry(value, if key in s then s[key].revision + 1 else 1)])
  }

  // The transaction: a failure anywhere leaves the state as it was.
  function Increment(host: Host, s: State, call: Call): (State, Result<int, CallError>) {
    var first, counter := KeyOfUse(host, call.key), CounterKey(call.name);
    if first in s then (s, if call.commits then Ok(s[first].value) else Err(StateFailure))
    else if !host.accepts(counter.Text()) then (s, Err(StateFailure))
    else
      var count := if counter in s then s[counter].value + 1 else 1;
      match Put(s, counter, count, if counter in s then s[counter].revision else 0)
      case None => (s, Err(StateFailure))
      case Some(counted) =>
        match Put(counted, first, count, 0)
        case None => (s, Err(StateFailure))
        case Some(done) => if call.commits then (done, Ok(count)) else (s, Err(StateFailure))
  }

  function Invoke(host: Host, s: State, call: Call): (State, Result<int, CallError>) {
    if call.name == "" || call.key == "" then (s, Err(InvalidArgument)) else Increment(host, s, call)
  }

  function Exec(host: Host, calls: seq<Call>): State {
    if calls == [] then map[] else Invoke(host, Exec(host, calls[..|calls| - 1]), calls[|calls| - 1]).0
  }

  // ---------------------------------------------------------------- the calls that counted

  datatype Use = Use(name: string, key: string, count: int)

  // A call counts when it succeeds and its key has not been used.
  function Uses(host: Host, calls: seq<Call>): seq<Use> {
    if calls == [] then []
    else
      var before, call := calls[..|calls| - 1], calls[|calls| - 1];
      var r := Invoke(host, Exec(host, before), call).1;
      Uses(host, before)
      + (if r.Ok? && KeyOfUse(host, call.key) !in Exec(host, before) then [Use(call.name, call.key, r.value)] else [])
  }

  function CountOf(uses: seq<Use>, name: string): nat {
    if uses == [] then 0
    else CountOf(uses[..|uses| - 1], name) + (if uses[|uses| - 1].name == name then 1 else 0)
  }

  function ValueOf(s: State, name: string): int {
    if CounterKey(name) in s then s[CounterKey(name)].value else 0
  }

  ghost predicate InjectiveDigest(host: Host) {
    forall a, b :: host.digest(a) == host.digest(b) ==> a == b
  }

  ghost predicate Used(uses: seq<Use>, key: string) {
    exists i :: 0 <= i < |uses| && uses[i].key == key
  }

  // The record of a use holds its count, the number of uses of its name so far.
  ghost predicate RecordMatches(host: Host, s: State, uses: seq<Use>, i: nat) {
    && i < |uses| && uses[i].key != "" && KeyOfUse(host, uses[i].key) in s
    && s[KeyOfUse(host, uses[i].key)].value == uses[i].count
    && uses[i].count == CountOf(uses[..i + 1], uses[i].name)
  }

  // The state holds a record for each use and each counted name, and nothing else.
  ghost predicate Matches(host: Host, s: State, uses: seq<Use>) {
    && (forall i :: 0 <= i < |uses| ==> RecordMatches(host, s, uses, i))
    && (forall i, j :: 0 <= i < j < |uses| ==> uses[i].key != uses[j].key)
    && (forall key :: KeyOfUse(host, key) in s ==> Used(uses, key))
    && (forall name :: ValueOf(s, name) == CountOf(uses, name))
    && (forall name :: CounterKey(name) in s ==> CountOf(uses, name) > 0)
    && |s| <= MAX_RECORDS
  }

  lemma CountAppend(uses: seq<Use>, use: Use, name: string)
    ensures CountOf(uses + [use], name) == CountOf(uses, name) + if use.name == name then 1 else 0
  {
    assert (uses + [use])[..|uses + [use]| - 1] == uses;
  }

  // What a first use changes.
  lemma FirstUse(host: Host, s: State, call: Call)
    requires Invoke(host, s, call).1.Ok? && KeyOfUse(host, call.key) !in s
    ensures var next := Invoke(host, s, call).0;
            Counted(host, s, next, Use(call.name, call.key, ValueOf(s, call.name) + 1)) && |next| <= MAX_RECORDS
    ensures Invoke(host, s, call).1 == Ok(ValueOf(s, call.name) + 1) && call.key != ""
  {
  }

  ghost predicate Counted(host: Host, s: State, next: State, use: Use) {
    var counter, first := CounterKey(use.name), KeyOfUse(host, use.key);
    && first !in s && next.Keys == s.Keys + {counter, first} && next[counter].value == next[first].value == use.count
    && forall k :: k in s && k != counter ==> next[k] == s[k]
  }

  lemma UseKeeps(host: Host, s: State, next: State, uses: seq<Use>, use: Use)
    requires InjectiveDigest(host) && Matches(host, s, uses) && Counted(host, s, next, use) && |next| <= MAX_RECORDS
    requires use.key != "" && use.count == ValueOf(s, use.name) + 1
    ensures Matches(host, next, uses + [use])
  {
    CountsMatch(host, s, next, uses, use);
    RecordsMatch(host, s, next, uses, use);
    UsedMatches(host, s, next, uses, use);
  }

  lemma CountsMatch(host: Host, s: State, next: State, uses: seq<Use>, use: Use)
    requires Matches(host, s, uses) && Counted(host, s, next, use) && use.count == ValueOf(s, use.name) + 1
    ensures forall name :: ValueOf(next, name) == CountOf(uses + [use], name)
    ensures forall name :: CounterKey(name) in next ==> CountOf(uses + [use], name) > 0
  {
    forall name
      ensures ValueOf(next, name) == CountOf(uses + [use], name)
      ensures CounterKey(name) in next ==> CountOf(uses + [use], name) > 0
    {
      CountAppend(uses, use, name);
    }
  }

  lemma RecordStays(host: Host, s: State, next: State, uses: seq<Use>, use: Use, i: nat)
    requires RecordMatches(host, s, uses, i) && Counted(host, s, next, use)
    ensures RecordMatches(host, next, uses + [use], i)
  {
    assert (uses + [use])[..i + 1] == uses[..i + 1];
  }

  lemma RecordsMatch(host: Host, s: State, next: State, uses: seq<Use>, use: Use)
    requires Matches(host, s, uses) && Counted(host, s, next, use)
    requires use.key != "" && use.count == ValueOf(s, use.name) + 1
    ensures forall i :: 0 <= i < |uses + [use]| ==> RecordMatches(host, next, uses + [use], i)
  {
    var more := uses + [use];
    forall i | 0 <= i < |more| ensures RecordMatches(host, next, more, i) {
      if i < |uses| {
        RecordStays(host, s, next, uses, use, i);
      } else {
        assert more[..i + 1] == more;
        CountAppend(uses, use, use.name);
      }
    }
  }

  lemma UsedMatches(host: Host, s: State, next: State, uses: seq<Use>, use: Use)
    requires InjectiveDigest(host) && Matches(host, s, uses) && Counted(host, s, next, use)
    ensures var more := uses + [use];
            && (forall i, j :: 0 <= i < j < |more| ==> more[i].key != more[j].key)
            && (forall key :: KeyOfUse(host, key) in next ==> Used(more, key))
  {
    var more := uses + [use];
    forall i | 0 <= i < |uses| ensures uses[i].key != use.key { assert RecordMatches(host, s, uses, i); }
    forall key | KeyOfUse(host, key) in next ensures Used(more, key) {
      if key == use.key { assert more[|uses|].key == key; }
      else {
        var i :| 0 <= i < |uses| && uses[i].key == key;
        assert more[i].key == key;
      }
    }
  }

  lemma {:induction false} RunMatches(host: Host, calls: seq<Call>)
    requires InjectiveDigest(host)
    ensures Matches(host, Exec(host, calls), Uses(host, calls))
  {
    if calls != [] {
      var before, call := calls[..|calls| - 1], calls[|calls| - 1];
      RunMatches(host, before);
      var s := Exec(host, before);
      if Invoke(host, s, call).1.Ok? && KeyOfUse(host, call.key) !in s {
        FirstUse(host, s, call);
        UseKeeps(host, s, Exec(host, calls), Uses(host, before), Use(call.name, call.key, ValueOf(s, call.name) + 1));
      } else {
        assert Invoke(host, s, call).0 == s;
        assert Uses(host, calls) == Uses(host, before);
      }
    }
  }

  // ---------------------------------------------------------------- main results

  // The names that were counted, in the order of their first use.
  function Names(uses: seq<Use>): seq<string> {
    if uses == [] then []
    else
      var before, last := Names(uses[..|uses| - 1]), uses[|uses| - 1].name;
      if last in before then before else before + [last]
  }

  function Sum(s: State, names: seq<string>): int {
    if names == [] then 0 else Sum(s, names[..|names| - 1]) + ValueOf(s, names[|names| - 1])
  }

  function SumOfCounts(uses: seq<Use>, names: seq<string>): nat {
    if names == [] then 0 else SumOfCounts(uses, names[..|names| - 1]) + CountOf(uses, names[|names| - 1])
  }

  predicate NoRepeats(names: seq<string>) {
    forall i, j :: 0 <= i < j < |names| ==> names[i] != names[j]
  }

  lemma {:induction false} NamesAreDistinct(uses: seq<Use>)
    ensures NoRepeats(Names(uses))
    ensures forall name :: name in Names(uses) <==> CountOf(uses, name) > 0
  {
    if uses != [] { NamesAreDistinct(uses[..|uses| - 1]); }
  }

  lemma {:induction false} SumAfterUse(uses: seq<Use>, use: Use, names: seq<string>)
    requires NoRepeats(names)
    ensures SumOfCounts(uses + [use], names) == SumOfCounts(uses, names) + if use.name in names then 1 else 0
  {
    if names != [] {
      var front, last := names[..|names| - 1], names[|names| - 1];
      SumAfterUse(uses, use, front);
      CountAppend(uses, use, last);
      assert names == front + [last];
    }
  }

  lemma {:induction false} CountsAddUp(uses: seq<Use>)
    ensures SumOfCounts(uses, Names(uses)) == |uses|
  {
    if uses != [] {
      var before, last := uses[..|uses| - 1], uses[|uses| - 1];
      assert uses == before + [last];
      CountsAddUp(before);
      NamesAreDistinct(before);
      SumAfterUse(before, last, Names(before));
      if last.name !in Names(before) {
        assert Names(uses)[..|Names(uses)| - 1] == Names(before);
        CountAppend(before, last, last.name);
      }
    }
  }

  lemma {:induction false} SumIsSumOfCounts(s: State, uses: seq<Use>, names: seq<string>)
    requires forall name :: ValueOf(s, name) == CountOf(uses, name)
    ensures Sum(s, names) == SumOfCounts(uses, names)
  {
    if names != [] { SumIsSumOfCounts(s, uses, names[..|names| - 1]); }
  }

  /** After any calls, each counter is the number of keys first used with its name, no other counter
      exists, and all counters together are the number of distinct keys that were used. */
  lemma CountIsConserved(host: Host, calls: seq<Call>)
    requires InjectiveDigest(host)
    ensures var (s, uses) := (Exec(host, calls), Uses(host, calls));
            && (forall name :: ValueOf(s, name) == CountOf(uses, name))
            && (forall name :: CounterKey(name) in s <==> name in Names(uses))
            && Sum(s, Names(uses)) == |uses|
            && (forall i, j :: 0 <= i < j < |uses| ==> uses[i].key != uses[j].key)
  {
    var s, uses := Exec(host, calls), Uses(host, calls);
    RunMatches(host, calls);
    NamesAreDistinct(uses);
    CountsAddUp(uses);
    SumIsSumOfCounts(s, uses, Names(uses));
    forall name | name in Names(uses) ensures CounterKey(name) in s {
      assert ValueOf(s, name) == CountOf(uses, name);
    }
  }

  lemma Recorded(host: Host, calls: seq<Call>, name: string, key: string)
    requires InjectiveDigest(host)
    ensures KeyOfUse(host, key) in Exec(host, calls) <==> Used(Uses(host, calls), key)
    ensures ValueOf(Exec(host, calls), name) == CountOf(Uses(host, calls), name)
  {
    RunMatches(host, calls);
    var s, uses := Exec(host, calls), Uses(host, calls);
    if i :| 0 <= i < |uses| && uses[i].key == key { assert RecordMatches(host, s, uses, i); }
  }

  lemma OneMoreCall(host: Host, calls: seq<Call>, call: Call)
    ensures Exec(host, calls + [call]) == Invoke(host, Exec(host, calls), call).0
    ensures var r := Invoke(host, Exec(host, calls), call).1;
            Uses(host, calls + [call]) == Uses(host, calls)
              + if r.Ok? && KeyOfUse(host, call.key) !in Exec(host, calls) then [Use(call.name, call.key, r.value)] else []
  {
    assert (calls + [call])[..|calls + [call]| - 1] == calls;
  }

  /** A call with a key that has been used returns what the first use returned, whatever name it
      gives, and changes nothing. */
  lemma ReplaysReturnTheFirstResult(host: Host, calls: seq<Call>, call: Call) returns (i: nat)
    requires InjectiveDigest(host) && Used(Uses(host, calls), call.key) && Invoke(host, Exec(host, calls), call).1.Ok?
    ensures i < |Uses(host, calls)| && Uses(host, calls)[i].key == call.key
    ensures Invoke(host, Exec(host, calls), call) == (Exec(host, calls), Ok(Uses(host, calls)[i].count))
    ensures Uses(host, calls + [call]) == Uses(host, calls)
  {
    var uses := Uses(host, calls);
    RunMatches(host, calls);
    OneMoreCall(host, calls, call);
    i :| 0 <= i < |uses| && uses[i].key == call.key;
    assert RecordMatches(host, Exec(host, calls), uses, i);
    assert uses + [] == uses;
  }

  /** A call with a new key that succeeds counts: it returns the number of keys used with its name so far. */
  lemma FirstUseCounts(host: Host, calls: seq<Call>, call: Call)
    requires InjectiveDigest(host) && !Used(Uses(host, calls), call.key) && Invoke(host, Exec(host, calls), call).1.Ok?
    ensures var (uses, count) := (Uses(host, calls), CountOf(Uses(host, calls), call.name) + 1);
            && Invoke(host, Exec(host, calls), call).1 == Ok(count)
            && Uses(host, calls + [call]) == uses + [Use(call.name, call.key, count)]
  {
    Recorded(host, calls, call.name, call.key);
    OneMoreCall(host, calls, call);
    FirstUse(host, Exec(host, calls), call);
  }

  // A new key, in any state: the counter's record is there or is added, and the key's is added.
  lemma NewKeySucceedsIff(host: Host, s: State, call: Call)
    requires KeyOfUse(host, call.key) !in s
    requires forall name :: CounterKey(name) in s ==> s[CounterKey(name)].revision > 0
    ensures var added := if CounterKey(call.name) in s then 1 else 2;
            var (next, r) := Invoke(host, s, call);
            && (r.Ok? <==> call.name != "" && call.key != "" && call.commits && host.accepts("counter/" + call.name)
                           && |s| + added <= 1000)
            && (r == Err(InvalidArgument) <==> call.name == "" || call.key == "")
            && (r.Err? ==> next == s)
  {
  }

  lemma {:induction false} RevisionsArePositive(host: Host, calls: seq<Call>)
    ensures forall key :: key in Exec(host, calls) ==> Exec(host, calls)[key].revision > 0
  {
    if calls != [] { RevisionsArePositive(host, calls[..|calls| - 1]); }
  }

  lemma CountedIff(host: Host, calls: seq<Call>, name: string)
    requires InjectiveDigest(host)
    ensures CounterKey(name) in Exec(host, calls) <==> CountOf(Uses(host, calls), name) > 0
  {
    RunMatches(host, calls);
    assert ValueOf(Exec(host, calls), name) == CountOf(Uses(host, calls), name);
  }

  /** A call with a new key succeeds exactly if name and key are given, the transaction commits, the host accepts the
      counter's key, and the records it adds leave the scope within its 1000; otherwise it says why and changes nothing. */
  lemma FirstUseSucceedsIff(host: Host, calls: seq<Call>, call: Call)
    requires InjectiveDigest(host) && !Used(Uses(host, calls), call.key)
    ensures var (s, added) := (Exec(host, calls), if CountOf(Uses(host, calls), call.name) > 0 then 1 else 2);
            var (next, r) := Invoke(host, s, call);
            && (r.Ok? <==> call.name != "" && call.key != "" && call.commits && host.accepts("counter/" + call.name)
                           && |s| + added <= 1000)
            && (r == Err(InvalidArgument) <==> call.name == "" || call.key == "")
            && (r.Err? ==> next == s)
  {
    Recorded(host, calls, call.name, call.key);
    CountedIff(host, calls, call.name);
    RevisionsArePositive(host, calls);
    NewKeySucceedsIff(host, Exec(host, calls), call);
  }

  lemma UsedKeysAreGiven(host: Host, calls: seq<Call>, key: string)
    requires InjectiveDigest(host) && Used(Uses(host, calls), key)
    ensures key != "" && KeyOfUse(host, key) in Exec(host, calls)
  {
    RunMatches(host, calls);
    var i :| 0 <= i < |Uses(host, calls)| && Uses(host, calls)[i].key == key;
    assert RecordMatches(host, Exec(host, calls), Uses(host, calls), i);
  }

  /** A call with a used key succeeds exactly if a name is given and the transaction commits. */
  lemma ReplaySucceedsIff(host: Host, calls: seq<Call>, call: Call)
    requires InjectiveDigest(host) && Used(Uses(host, calls), call.key)
    ensures Invoke(host, Exec(host, calls), call).1.Ok? <==> call.name != "" && call.commits
    ensures Invoke(host, Exec(host, calls), call).0 == Exec(host, calls)
  {
    UsedKeysAreGiven(host, calls, call.key);
  }

  /** The count cannot leave the range of int64: it is bounded by the records a scope may hold. */
  lemma CountsAreSmall(host: Host, calls: seq<Call>, name: string)
    requires InjectiveDigest(host)
    ensures 0 <= ValueOf(Exec(host, calls), name) <= MAX_RECORDS
  {
    var s, uses := Exec(host, calls), Uses(host, calls);
    RunMatches(host, calls);
    CountIsAtMost(uses, name);
    forall i | 0 <= i < |uses| ensures KeyOfUse(host, uses[i].key) in s { assert RecordMatches(host, s, uses, i); }
    UsesAreRecords(host, s, uses);
  }

  lemma {:induction false} CountIsAtMost(uses: seq<Use>, name: string)
    ensures CountOf(uses, name) <= |uses|
  {
    if uses != [] { CountIsAtMost(uses[..|uses| - 1], name); }
  }

  // Each use has a record of its own.
  lemma {:induction false} UsesAreRecords(host: Host, s: State, uses: seq<Use>)
    requires InjectiveDigest(host)
    requires forall i :: 0 <= i < |uses| ==> KeyOfUse(host, uses[i].key) in s
    requires forall i, j :: 0 <= i < j < |uses| ==> uses[i].key != uses[j].key
    ensures |uses| <= |s|
  {
    if uses != [] {
      var before, last := uses[..|uses| - 1], KeyOfUse(host, uses[|uses| - 1].key);
      var smaller := s - {last};
      assert |smaller| == |s| - 1 by { assert s.Keys == smaller.Keys + {last}; }
      forall i | 0 <= i < |before| ensures KeyOfUse(host, before[i].key) in smaller {
        assert uses[i].key != uses[|uses| - 1].key;
      }
      UsesAreRecords(host, smaller, before);
    }
  }

  // ---------------------------------------------------------------- the plugin

  class Scope {
    var values: State
    const host: Host

    constructor (host: Host)
      ensures values == map[] && this.host == host
    {
      values, this.host := map[], host;
    }

    method PutValue(key: StateKey, value: int, expected: nat) returns (ok: bool)
      modifies this
      ensures ok <==> Put(old(values), key, value, expected).Some?
      ensures values == if ok then Put(old(values), key, value, expected).value else old(values)
    {
      if expected == 0 && key in values { return false; }
      if expected > 0 && (key !in values || values[key].revision != expected) { return false; }
      if key !in values && |values| >= MAX_RECORDS { return false; }
      values := values[key := Entry(value, if key in values then values[key].revision + 1 else 1)];
      ok := true;
    }

    method IncrementOnce(call: Call) returns (r: Result<int, CallError>)
      modifies this
      ensures (values, r) == Increment(host, old(values), call)
    {
      var prior := values;
      var first, counter := KeyOfUse(host, call.key), CounterKey(call.name);
      if first in values { return if call.commits then Ok(values[first].value) else Err(StateFailure); }
      if !host.accepts(counter.Text()) { return Err(StateFailure); }
      var count, expected := 0, 0;
      if counter in values { count, expected := values[counter].value, values[counter].revision; }
      count := count + 1;
      var ok := PutValue(counter, count, expected);
      if ok { ok := PutValue(first, count, 0); }
      if !ok || !call.commits {
        values := prior;
        return Err(StateFailure);
      }
      r := Ok(count);
    }
  }
}
