/** `CommandFactory` of server/command_factory.py: the benchmark commands loaded from JSON files,
    served one per request from the right end of a deque that is refilled from the loaded list
    whenever it runs empty. The deque is a sequence whose right end is its last element. */
module CommandQueue {
  import opened Basics

  /** One JSON object of a command file (only string values are modelled). */
  type JsonObject = map<string, string>

  /** A command file as `open` + `json.load` see it: missing, or a list of objects. */
  datatype JsonFile = NotFound | Loaded(entries: seq<JsonObject>)

  /** The Python exceptions `get_cmds_and_test_info` can raise. */
  datatype PyError = IndexError | KeyError(key: string) | UnicodeEncodeError

  /** The commands of all files that could be found, in file order; missing files are skipped. */
  function LoadedEntries(files: seq<JsonFile>): (r: seq<JsonObject>)
    ensures (forall i :: 0 <= i < |files| ==> files[i] == NotFound) ==> r == []
  {
    if files == [] then []
    else
      var front := LoadedEntries(files[..|files| - 1]);
      match files[|files| - 1]
      case NotFound => front
      case Loaded(entries) => front + entries
  }

  /** Loading two groups of files one after the other loads their concatenation. */
  lemma {:induction false} LoadedEntriesAppend(a: seq<JsonFile>, b: seq<JsonFile>)
    ensures LoadedEntries(a + b) == LoadedEntries(a) + LoadedEntries(b)
  {
    if b != [] {
      assert (a + b)[|a + b| - 1] == b[|b| - 1];
      assert (a + b)[..|a + b| - 1] == a + b[..|b| - 1];
      LoadedEntriesAppend(a, b[..|b| - 1]);
    } else {
      assert a + b == a;
    }
  }

  /** A missing file contributes nothing, wherever it is in the list. */
  lemma MissingFileIgnored(a: seq<JsonFile>, b: seq<JsonFile>)
    ensures LoadedEntries(a + [NotFound] + b) == LoadedEntries(a + b)
  {
    LoadedEntriesAppend(a + [NotFound], b);
    LoadedEntriesAppend(a, b);
    assert (a + [NotFound])[..|a|] == a;
  }

  /** `__fill_the_queue` as a value: a missing or empty deque is replaced by a copy of the loaded
      list; any other deque is kept. */
  function Refill(data: seq<JsonObject>, queue: Option<seq<JsonObject>>): (q: seq<JsonObject>)
    ensures queue.Some? && queue.value != [] ==> q == queue.value
    ensures queue.None? || queue.value == [] ==> q == data
  {
    if queue.None? || queue.value == [] then data else queue.value
  }

  /** One request: the entry popped from the right end and the deque after the refill. */
  function Pop(data: seq<JsonObject>, queue: seq<JsonObject>): (r: (JsonObject, seq<JsonObject>))
    requires queue != []
    ensures r.0 == queue[|queue| - 1]
    ensures data != [] ==> r.1 != []
  {
    (queue[|queue| - 1], Refill(data, Some(queue[..|queue| - 1])))
  }

  /** The entries served by `k` requests starting from `queue`, and the deque afterwards. */
  function Serve(data: seq<JsonObject>, queue: seq<JsonObject>, k: nat): (r: (seq<JsonObject>, seq<JsonObject>))
    requires data != [] && queue != []
    ensures |r.0| == k && r.1 != []
    decreases k
  {
    if k == 0 then ([], queue)
    else
      var (entry, next) := Pop(data, queue);
      var (rest, final) := Serve(data, next, k - 1);
      ([entry] + rest, final)
  }

  /** A sequence read from the right end. */
  function Reverse<T>(s: seq<T>): (r: seq<T>)
    ensures |r| == |s|
  {
    if s == [] then [] else [s[|s| - 1]] + Reverse(s[..|s| - 1])
  }

  lemma {:induction false} ReverseAt<T>(s: seq<T>, i: nat)
    requires i < |s|
    ensures Reverse(s)[i] == s[|s| - 1 - i]
  {
    if i > 0 {
      ReverseAt(s[..|s| - 1], i - 1);
    }
  }

  /** Reversing only reorders: every entry occurs as often as before. */
  lemma {:induction false} ReversePermutes<T>(s: seq<T>)
    ensures multiset(Reverse(s)) == multiset(s)
  {
    if s != [] {
      ReversePermutes(s[..|s| - 1]);
      assert s == s[..|s| - 1] + [s[|s| - 1]];
    }
  }

  /** Draining a deque that holds the first `m` loaded entries returns them last-first and leaves
      a full deque. */
  lemma {:induction false} ServeDrains(data: seq<JsonObject>, m: nat)
    requires 1 <= m <= |data|
    ensures Serve(data, data[..m], m) == (Reverse(data[..m]), data)
  {
    var (entry, next) := Pop(data, data[..m]);
    assert data[..m][..m - 1] == data[..m - 1];
    if m > 1 {
      ServeDrains(data, m - 1);
    }
  }

  /** The rotation: from a full deque, `n` requests return every loaded entry exactly once, in
      reverse list order, and the deque is full again, so the cycle repeats. */
  lemma FullCycle(data: seq<JsonObject>)
    requires data != []
    ensures Serve(data, data, |data|) == (Reverse(data), data)
    ensures multiset(Serve(data, data, |data|).0) == multiset(data)
  {
    assert data[..|data|] == data;
    ServeDrains(data, |data|);
    ReversePermutes(data);
  }

  /** The deque after `k` requests from a full one: the first n - (k mod n) loaded entries. */
  function QueueAfter(data: seq<JsonObject>, k: nat): (q: seq<JsonObject>)
    requires data != []
    ensures q != [] && |q| <= |data|
  {
    data[..|data| - k % |data|]
  }

  /** One request from the deque left by `k` requests serves entry n-1-(k mod n) and leaves the
      deque of `k + 1` requests. */
  lemma PopAfter(data: seq<JsonObject>, k: nat)
    requires data != []
    ensures Pop(data, QueueAfter(data, k)) == (data[|data| - 1 - k % |data|], QueueAfter(data, k + 1))
  {
    var n := |data|;
    var q := QueueAfter(data, k);
    assert q[..|q| - 1] == data[..n - 1 - k % n];
    if k % n == n - 1 {
      assert (k + 1) % n == 0 by { ModNext(k, n); }
      assert data[..n] == data;
    } else {
      assert (k + 1) % n == k % n + 1 by { ModNext(k, n); }
    }
  }

  /** The entry served by request number `k` (counting from 0) of a deque that starts full. */
  function Turn(data: seq<JsonObject>, k: nat): (e: JsonObject)
    requires data != []
    ensures e in data
    ensures k < |data| ==> e == data[|data| - 1 - k]
  {
    data[|data| - 1 - k % |data|]
  }

  /** The rotation repeats: request k + n serves the same entry as request k. */
  lemma TurnPeriodic(data: seq<JsonObject>, k: nat)
    requires data != []
    ensures Turn(data, k + |data|) == Turn(data, k)
  {
    var n := |data|;
    DivIsUnique(k + n, n, k / n + 1, k % n);
  }

  /** Within each block of n requests that starts at a multiple of n, request i of the block serves
      entry n-1-i: every entry once, in reverse list order. */
  lemma TurnInBlock(data: seq<JsonObject>, m: nat, i: nat)
    requires i < |data|
    ensures Turn(data, m * |data| + i) == data[|data| - 1 - i]
  {
    var n := |data|;
    DivIsUnique(m * n + i, n, m, i);
  }

  /** The k-th request since construction (counting from 0) serves entry n-1-(k mod n): the
      closed form agrees with running the deque. */
  lemma {:induction false} ServeFrom(data: seq<JsonObject>, j: nat, k: nat)
    requires data != []
    ensures Serve(data, QueueAfter(data, j), k).1 == QueueAfter(data, j + k)
    ensures forall i :: 0 <= i < k ==> Serve(data, QueueAfter(data, j), k).0[i] == Turn(data, j + i)
    decreases k
  {
    if k > 0 {
      var q := QueueAfter(data, j);
      var next := QueueAfter(data, j + 1);
      PopAfter(data, j);
      ServeStep(data, q, k);
      ServeFrom(data, j + 1, k - 1);
      var r := Serve(data, q, k);
      var r1 := Serve(data, next, k - 1);
      assert r == ([Turn(data, j)] + r1.0, r1.1);
      ShiftServed(data, j, r.0, r1.0);
    }
  }

  /** One step of `Serve`: the popped entry, then what the remaining requests serve. */
  lemma ServeStep(data: seq<JsonObject>, queue: seq<JsonObject>, k: nat)
    requires data != [] && queue != [] && k > 0
    ensures var next := Pop(data, queue).1;
            Serve(data, queue, k) == ([queue[|queue| - 1]] + Serve(data, next, k - 1).0, Serve(data, next, k - 1).1)
  {
  }

  /** The closed form for requests j, j+1, ... follows from the one for j+1, j+2, ... */
  lemma ShiftServed(data: seq<JsonObject>, j: nat, served: seq<JsonObject>, rest: seq<JsonObject>)
    requires data != []
    requires served == [Turn(data, j)] + rest
    requires forall i :: 0 <= i < |rest| ==> rest[i] == Turn(data, j + 1 + i)
    ensures forall i :: 0 <= i < |served| ==> served[i] == Turn(data, j + i)
  {
    forall i | 1 <= i < |served|
      ensures served[i] == Turn(data, j + i)
    {
      assert served[i] == rest[i - 1];
      assert j + 1 + (i - 1) == j + i;
    }
  }

  lemma ModNext(k: nat, n: nat)
    requires n >= 1
    ensures (k + 1) % n == if k % n == n - 1 then 0 else k % n + 1
  {
    var q := k / n;
    var r := k % n;
    if r == n - 1 {
      DivIsUnique(k + 1, n, q + 1, 0);
    } else {
      DivIsUnique(k + 1, n, q, r + 1);
    }
  }

  /** `str.encode('ascii')`: one byte per character, refused when any character is outside ASCII. */
  function EncodeAscii(s: string): (r: Result<seq<byte>, PyError>)
    ensures r.Success? <==> forall i :: 0 <= i < |s| ==> s[i] as int < 128
    ensures r.Success? ==> |r.value| == |s| && forall i :: 0 <= i < |s| ==> r.value[i] == s[i] as int
    ensures r.Failure? ==> r.error == UnicodeEncodeError
  {
    if forall i :: 0 <= i < |s| ==> s[i] as int < 128 then
      Success(seq(|s|, i requires 0 <= i < |s| => s[i] as int))
    else Failure(UnicodeEncodeError)
  }

  /** `bytes.decode('ascii')`. */
  function DecodeAscii(b: seq<byte>): (r: Option<string>)
    ensures r.Some? <==> forall i :: 0 <= i < |b| ==> b[i] < 128
  {
    if forall i :: 0 <= i < |b| ==> b[i] < 128 then Some(seq(|b|, i requires 0 <= i < |b| => b[i] as char)) else None
  }

  /** ASCII encoding loses nothing: decoding gives the command text back. */
  lemma AsciiRoundTrip(s: string)
    requires EncodeAscii(s).Success?
    ensures DecodeAscii(EncodeAscii(s).value) == Some(s)
  {
    var b := EncodeAscii(s).value;
    assert forall i :: 0 <= i < |b| ==> b[i] < 128;
    assert seq(|b|, i requires 0 <= i < |b| => b[i] as char) == s;
  }

  /** What `get_cmds_and_test_info` returns for the popped entry: the encoded `exec` and `killcmd`
      commands and two empty strings, or the exception the lookups and encodings raise first. */
  function Response(entry: JsonObject): (r: Result<(seq<byte>, seq<byte>, string, string), PyError>)
    ensures "exec" !in entry ==> r == Failure(KeyError("exec"))
    ensures r.Success? <==>
      && "exec" in entry && "killcmd" in entry
      && EncodeAscii(entry["exec"]).Success? && EncodeAscii(entry["killcmd"]).Success?
    ensures r.Success? ==>
      r.value == (EncodeAscii(entry["exec"]).value, EncodeAscii(entry["killcmd"]).value, "", "")
  {
    if "exec" !in entry then Failure(KeyError("exec"))
    else
      match EncodeAscii(entry["exec"])
      case Failure(e) => Failure(e)
      case Success(exec) =>
        if "killcmd" !in entry then Failure(KeyError("killcmd"))
        else
          match EncodeAscii(entry["killcmd"])
          case Failure(e) => Failure(e)
          case Success(kill) => Success((exec, kill, "", ""))
  }

  class CommandFactory {
    var jsonDataList: seq<JsonObject>
    /** `None` until the first fill. */
    var cmdQueue: Option<seq<JsonObject>>
    /** How many entries have been popped since construction. */
    ghost var served: nat

    /** The deque always exists; with commands loaded it is never empty and holds the first
        n - (served mod n) of them; with none loaded it stays empty. */
    ghost predicate Valid()
      reads this
    {
      && cmdQueue.Some?
      && (jsonDataList == [] ==> cmdQueue.value == [])
      && (jsonDataList != [] ==> cmdQueue.value == QueueAfter(jsonDataList, served))
    }

    /** `__init__`: each file that can be opened contributes its list of commands, in order; then
        the deque is filled, so it starts as a copy of the loaded list. */
    constructor (jsonFilesList: seq<JsonFile>)
      ensures Valid()
      ensures jsonDataList == LoadedEntries(jsonFilesList)
      ensures cmdQueue == Some(jsonDataList) && served == 0
    {
      var list := [];
      var i := 0;
      while i < |jsonFilesList|
        invariant 0 <= i <= |jsonFilesList|
        invariant list == LoadedEntries(jsonFilesList[..i])
      {
        assert jsonFilesList[..i + 1][..i] == jsonFilesList[..i];
        match jsonFilesList[i] {
          case NotFound =>
          case Loaded(entries) => list := list + entries;
        }
        i := i + 1;
      }
      assert jsonFilesList[..i] == jsonFilesList;
      jsonDataList := list;
      cmdQueue := None;
      served := 0;
      new;
      FillTheQueue();
      if jsonDataList != [] {
        assert QueueAfter(jsonDataList, 0) == jsonDataList[..|jsonDataList|];
      }
    }

    /** `__fill_the_queue`: only a missing or empty deque is replaced. */
    method FillTheQueue()
      modifies this`cmdQueue
      ensures cmdQueue == Some(Refill(jsonDataList, old(cmdQueue)))
    {
      if cmdQueue.None? || cmdQueue.value == [] {
        cmdQueue := Some(jsonDataList);
      }
    }

    /** `get_cmds_and_test_info` with the default `ascii` encoding. With nothing loaded, `pop`
        raises `IndexError` and nothing changes. Otherwise the entry at the right end is popped
        and the deque refilled before the entry is looked at, so a malformed entry still uses up
        its turn; the k-th request since construction serves entry n-1-(k mod n). */
    method GetCmdsAndTestInfo() returns (r: Result<(seq<byte>, seq<byte>, string, string), PyError>)
      requires Valid()
      modifies this`cmdQueue, this`served
      ensures Valid()
      ensures old(jsonDataList) == [] ==> r == Failure(IndexError) && cmdQueue == old(cmdQueue) && served == old(served)
      ensures old(jsonDataList) != [] ==>
        && cmdQueue == Some(Pop(jsonDataList, old(cmdQueue.value)).1)
        && served == old(served) + 1
        && r == Response(Turn(jsonDataList, old(served)))
    {
      var queue := cmdQueue.value;
      if queue == [] {
        return Failure(IndexError);
      }
      PopAfter(jsonDataList, served);
      var machineDict := queue[|queue| - 1];
      cmdQueue := Some(queue[..|queue| - 1]);
      served := served + 1;
      FillTheQueue();
      r := Response(machineDict);
    }
  }
}
