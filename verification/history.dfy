/**
 * The conversion history of one session: an append-only log of past
 * conversions, of which the sidebar shows the most recent five, newest first.
 */
module History {

  /** How many entries the sidebar shows. */
  const MaxShown: nat := 5

  /** One past conversion: the input amount and unit, and the result and its unit. */
  datatype Entry = Entry(value: real, fromUnit: string, result: real, toUnit: string)

  function Min(a: nat, b: nat): nat
  {
    if a <= b then a else b
  }

  /** The sequence in reverse order: its last element first. */
  function Reverse<T>(s: seq<T>): seq<T>
  {
    if s == [] then [] else [s[|s| - 1]] + Reverse(s[..|s| - 1])
  }

  lemma {:induction false} ReverseAt<T>(s: seq<T>, k: nat)
    requires k < |s|
    ensures |Reverse(s)| == |s|
    ensures Reverse(s)[k] == s[|s| - 1 - k]
  {
    if k == 0 {
      ReverseLength(s[..|s| - 1]);
    } else {
      ReverseAt(s[..|s| - 1], k - 1);
    }
  }

  lemma {:induction false} ReverseLength<T>(s: seq<T>)
    ensures |Reverse(s)| == |s|
    decreases |s|
  {
    if s != [] {
      ReverseLength(s[..|s| - 1]);
    }
  }

  /**
   * The displayed part of the log `h`: its last `min(5, |h|)` entries, most
   * recent first.
   */
  function Window<T>(h: seq<T>): (r: seq<T>)
    ensures |r| == Min(MaxShown, |h|)
    ensures forall k :: 0 <= k < |r| ==> r[k] == h[|h| - 1 - k]
  {
    var tail := h[|h| - Min(MaxShown, |h|)..];
    ReverseLength(tail);
    assert forall k :: 0 <= k < |tail| ==> Reverse(tail)[k] == tail[|tail| - 1 - k] by {
      forall k | 0 <= k < |tail| ensures Reverse(tail)[k] == tail[|tail| - 1 - k] {
        ReverseAt(tail, k);
      }
    }
    Reverse(tail)
  }

  /**
   * A new entry goes to the front of the view and, once the view is full,
   * pushes its oldest entry out.
   */
  lemma WindowAfterAppend<T>(h: seq<T>, e: T)
    ensures Window(h + [e]) == [e] + Window(h)[..Min(MaxShown - 1, |h|)]
  {
  }

  /** After seven entries the view shows the seventh, sixth, fifth, fourth and third. */
  lemma SevenEntries<T>(e1: T, e2: T, e3: T, e4: T, e5: T, e6: T, e7: T)
    ensures Window([e1, e2, e3, e4, e5, e6, e7]) == [e7, e6, e5, e4, e3]
  {
  }

  /** The session's history: the list every conversion is appended to. */
  class HistoryLog {
    var entries: seq<Entry>

    /** A new session starts with an empty history. */
    constructor ()
      ensures entries == []
    {
      entries := [];
    }

    /** Records one conversion at the end; earlier entries stay as they were. */
    method Append(e: Entry)
      modifies this
      ensures entries == old(entries) + [e]
      ensures |entries| == |old(entries)| + 1 && entries[|entries| - 1] == e
      ensures forall k :: 0 <= k < |old(entries)| ==> entries[k] == old(entries)[k]
    {
      entries := entries + [e];
    }

    /**
     * The entries the sidebar writes, in the order it writes them: walking the
     * last five entries from the newest back to the oldest.
     */
    method Recent() returns (shown: seq<Entry>)
      ensures |shown| == Min(MaxShown, |entries|)
      ensures forall k :: 0 <= k < |shown| ==> shown[k] == entries[|entries| - 1 - k]
      ensures shown == Window(entries)
    {
      var start := |entries| - Min(MaxShown, |entries|);
      var i := |entries|;
      shown := [];
      while i > start
        invariant start <= i <= |entries|
        invariant |shown| == |entries| - i
        invariant forall k :: 0 <= k < |shown| ==> shown[k] == entries[|entries| - 1 - k]
      {
        shown := shown + [entries[i - 1]];
        i := i - 1;
      }
    }
  }
}
