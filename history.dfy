/**
 * The persisted history of `save_history` and the preview read by `home`
 * (app.py), and the single "latest" slot that `predict` overwrites.
 *
 * The history file is modelled by what loading it yields: `Some(records)`
 * when it exists and parses as a list of records, `None` when it is missing
 * or cannot be parsed.  Reading and writing the file as JSON is not modelled.
 */
module History {
  import opened Wrappers
  import opened Records

  /** At most this many records are kept. */
  const Capacity: nat := 50

  /** The home page shows at most this many recent records. */
  const PreviewSize: nat := 5

  function Min(a: nat, b: nat): nat
  {
    if a <= b then a else b
  }

  /** `s[:n]` */
  function Take<T>(s: seq<T>, n: nat): (t: seq<T>)
    ensures |t| == Min(n, |s|)
    ensures forall k :: 0 <= k < |t| ==> t[k] == s[k]
  {
    s[..Min(n, |s|)]
  }

  /** The tolerant load: a missing or corrupt file reads as the empty list. */
  function Tolerant(loaded: Option<seq<Record>>): seq<Record>
  {
    match loaded
    case Some(records) => records
    case None => []
  }

  /** The list written back after saving `r` on top of `data`: newest first, at most `Capacity` long. */
  function Pushed(r: Record, data: seq<Record>): (stored: seq<Record>)
    ensures 1 <= |stored| <= Capacity
    ensures |stored| == Min(Capacity, |data| + 1)
    ensures stored[0] == r
    ensures forall k :: 1 <= k < |stored| ==> stored[k] == data[k - 1]
  {
    Take([r] + data, Capacity)
  }

  /** What the file holds after saving each of `rs` in turn, starting from `data`. */
  function SaveAll(data: seq<Record>, rs: seq<Record>): seq<Record>
    decreases |rs|
  {
    if |rs| == 0 then data else SaveAll(Pushed(rs[0], data), rs[1..])
  }

  function Reverse<T>(s: seq<T>): (r: seq<T>)
    ensures |r| == |s|
    ensures forall k :: 0 <= k < |s| ==> r[k] == s[|s| - 1 - k]
  {
    if |s| == 0 then [] else Reverse(s[1..]) + [s[0]]
  }

  /** Truncating twice to the same bound is truncating once. */
  lemma TakeAfterTake<T>(a: seq<T>, b: seq<T>, n: nat)
    ensures Take(a + Take(b, n), n) == Take(a + b, n)
  {
  }

  /**
   * Saving the records `rs` one after another, starting from a list within
   * capacity, leaves the newest `Capacity` of all, newest first.
   */
  lemma {:induction false} SaveAllKeepsNewest(data: seq<Record>, rs: seq<Record>)
    requires |data| <= Capacity
    ensures SaveAll(data, rs) == Take(Reverse(rs) + data, Capacity)
    decreases |rs|
  {
    if |rs| == 0 {
      assert Reverse(rs) + data == data;
    } else {
      SaveAllKeepsNewest(Pushed(rs[0], data), rs[1..]);
      TakeAfterTake(Reverse(rs[1..]), [rs[0]] + data, Capacity);
      assert Reverse(rs[1..]) + ([rs[0]] + data) == Reverse(rs) + data;
    }
  }

  /** Every sequence of saves keeps the list within capacity. */
  lemma {:induction false} SaveAllBounded(data: seq<Record>, rs: seq<Record>)
    requires |data| <= Capacity
    ensures |SaveAll(data, rs)| <= Capacity
  {
    SaveAllKeepsNewest(data, rs);
  }

  /**
   * After 51 saves into an empty history exactly the 50 newest remain, newest
   * first: the first record saved is no longer at any position.
   */
  lemma FiftyOneSaves(rs: seq<Record>)
    requires |rs| == Capacity + 1
    ensures SaveAll([], rs) == Reverse(rs[1..])
    ensures |SaveAll([], rs)| == Capacity
    ensures forall k :: 0 <= k < Capacity ==> SaveAll([], rs)[k] == rs[Capacity - k]
    ensures rs[0] !in rs[1..] ==> rs[0] !in SaveAll([], rs)
  {
    SaveAllKeepsNewest([], rs);
    assert Reverse(rs) + [] == Reverse(rs);
    assert Take(Reverse(rs), Capacity) == Reverse(rs[1..]);
  }

  /** The history file. */
  class HistoryFile {
    /** What loading the file yields; `None` when it is missing or unparseable. */
    var contents: Option<seq<Record>>

    constructor (initial: Option<seq<Record>>)
      ensures contents == initial
    {
      contents := initial;
    }

    /** The records the application sees: the tolerant load of the file. */
    function Records(): seq<Record>
      reads this
    {
      Tolerant(contents)
    }

    /**
     * save_history: load tolerantly, insert `r` at the front, keep the first
     * `Capacity` and write the list back.
     */
    method Save(r: Record)
      modifies this
      ensures contents == Some(Pushed(r, Tolerant(old(contents))))
      ensures Records()[0] == r && |Records()| <= Capacity
      ensures old(contents).None? ==> contents == Some([r])
    {
      var data: seq<Record> := [];
      if contents.Some? {
        data := contents.value;
      }
      ghost var loaded := data;
      data := [r] + data;
      data := data[..Min(Capacity, |data|)];
      assert data == Take([r] + loaded, Capacity);
      contents := Some(data);
    }

    /** The preview of `home`: the first `PreviewSize` records of the tolerant load. */
    method Preview() returns (recent: seq<Record>)
      ensures |recent| == Min(PreviewSize, |Tolerant(contents)|)
      ensures forall k :: 0 <= k < |recent| ==> recent[k] == Tolerant(contents)[k]
    {
      var history: seq<Record> := [];
      if contents.Some? {
        history := contents.value;
      }
      recent := history[..Min(PreviewSize, |history|)];
    }
  }

  /** The single-record file `latest.json`, read back to regenerate the report. */
  class LatestFile {
    var slot: Option<Record>

    constructor ()
      ensures slot == None
    {
      slot := None;
    }

    /** Overwrites the slot with `r`. */
    method Write(r: Record)
      modifies this
      ensures slot == Some(r)
    {
      slot := Some(r);
    }
  }
}
