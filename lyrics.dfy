/**
 * Time-synchronised lyrics. The song's `timeSync` list holds cues (a start
 * time in seconds and a line of text). On every playback time update the
 * page scans the list from the front, keeps the last cue whose time is at
 * most the playback time and stops at the first cue that starts later; it
 * re-renders the lyrics element only when a cue was found and its index
 * differs from the one shown last.
 */
module Lyrics {
  import opened Wrappers
  import opened Format

  datatype Cue = Cue(time: real, text: string)

  // ---------------------------------------------------------------------
  // What the scan selects
  // ---------------------------------------------------------------------

  /**
   * The number of cues at the front of the list that have started by
   * `time`: the scan walks exactly this far before it stops.
   */
  function StartedPrefix(lyrics: seq<Cue>, time: real): (n: nat)
    ensures n <= |lyrics|
    ensures forall j :: 0 <= j < n ==> lyrics[j].time <= time
    ensures n < |lyrics| ==> lyrics[n].time > time
  {
    if lyrics == [] || lyrics[0].time > time then 0
    else 1 + StartedPrefix(lyrics[1..], time)
  }

  /** The index the scan settles on, -1 when the first cue has not started. */
  function SelectedIndex(lyrics: seq<Cue>, time: real): (i: int)
    ensures -1 <= i < |lyrics|
    ensures i >= 0 ==> lyrics[i].time <= time
  {
    StartedPrefix(lyrics, time) - 1
  }

  /** Cues in ascending order of start time (equal times allowed). */
  predicate SortedByTime(lyrics: seq<Cue>) {
    forall i, j :: 0 <= i < j < |lyrics| ==> lyrics[i].time <= lyrics[j].time
  }

  /**
   * Reference definition: the greatest index whose cue has started by
   * `time`, or -1 if none has. It looks at every cue, not only a prefix.
   */
  function LastStarted(lyrics: seq<Cue>, time: real): (i: int)
    ensures -1 <= i < |lyrics|
    ensures i >= 0 ==> lyrics[i].time <= time
    ensures forall j :: i < j < |lyrics| ==> lyrics[j].time > time
  {
    if lyrics == [] then -1
    else if lyrics[|lyrics| - 1].time <= time then |lyrics| - 1
    else LastStarted(lyrics[..|lyrics| - 1], time)
  }

  /**
   * On a list sorted by time the scan finds the greatest index of a cue that
   * has started; among cues with equal times the later one wins.
   */
  lemma {:induction false} SortedScanFindsLastStarted(lyrics: seq<Cue>, time: real)
    requires SortedByTime(lyrics)
    ensures SelectedIndex(lyrics, time) == LastStarted(lyrics, time)
  {
    var i := LastStarted(lyrics, time);
    forall j | 0 <= j < i + 1
      ensures lyrics[j].time <= time
    {
      assert lyrics[j].time <= lyrics[i].time;
    }
    PrefixIsStartedPrefix(lyrics, time, i + 1);
  }

  /** Any cue found started at or before `time`; none is found iff the first cue starts later. */
  lemma {:induction false} ScanSelectsNoneIff(lyrics: seq<Cue>, time: real)
    ensures SelectedIndex(lyrics, time) == -1 <==> (lyrics == [] || lyrics[0].time > time)
    ensures (forall j :: 0 <= j < |lyrics| ==> lyrics[j].time > time) ==> SelectedIndex(lyrics, time) == -1
  {
    if lyrics != [] && lyrics[0].time <= time {
      assert StartedPrefix(lyrics, time) == 1 + StartedPrefix(lyrics[1..], time);
    }
  }

  /**
   * The selection moves with time, forwards and backwards: a later time
   * never selects an earlier cue, and going back before the selected cue's
   * own start (a seek backwards) selects an earlier index, possibly -1.
   */
  lemma {:induction false} SelectionFollowsTime(lyrics: seq<Cue>, t1: real, t2: real)
    requires t1 <= t2
    ensures SelectedIndex(lyrics, t1) <= SelectedIndex(lyrics, t2)
    ensures var i := SelectedIndex(lyrics, t2);
            i >= 0 && t1 < lyrics[i].time ==> SelectedIndex(lyrics, t1) < i
  {
    if lyrics != [] && lyrics[0].time <= t1 {
      SelectionFollowsTime(lyrics[1..], t1, t2);
    }
  }

  /** The tie rule on a concrete track: at time 5 the second of two cues at 5 is shown. */
  lemma DuplicateTimesLaterWins()
    ensures SelectedIndex([Cue(0.0, "a"), Cue(5.0, "b"), Cue(5.0, "c")], 5.0) == 2
  {
    var track := [Cue(0.0, "a"), Cue(5.0, "b"), Cue(5.0, "c")];
    assert track[1..][1..][1..] == [];
    assert StartedPrefix(track[1..][1..], 5.0) == 1;
  }

  // ---------------------------------------------------------------------
  // The scan itself
  // ---------------------------------------------------------------------

  /**
   * The loop of updateLyricsDisplay: walk the cues from the front,
   * remembering the last one that has started, and break at the first one
   * that has not. Works on any list, sorted or not.
   */
  method ScanCues(lyrics: seq<Cue>, time: real) returns (currentLyric: Option<Cue>, newLyricIndex: int)
    ensures -1 <= newLyricIndex < |lyrics|
    ensures forall j :: 0 <= j <= newLyricIndex ==> lyrics[j].time <= time
    ensures newLyricIndex + 1 < |lyrics| ==> lyrics[newLyricIndex + 1].time > time
    ensures currentLyric == if newLyricIndex == -1 then None else Some(lyrics[newLyricIndex])
    ensures newLyricIndex == SelectedIndex(lyrics, time)
  {
    currentLyric := None;
    newLyricIndex := -1;
    var i := 0;
    while i < |lyrics|
      invariant 0 <= i <= |lyrics|
      invariant newLyricIndex == i - 1
      invariant forall j :: 0 <= j < i ==> lyrics[j].time <= time
      invariant currentLyric == if i == 0 then None else Some(lyrics[i - 1])
    {
      if lyrics[i].time <= time {
        currentLyric := Some(lyrics[i]);
        newLyricIndex := i;
      } else {
        break;
      }
      i := i + 1;
    }
    PrefixIsStartedPrefix(lyrics, time, newLyricIndex + 1);
  }

  /** The only prefix length with all cues started and the next one not is StartedPrefix. */
  lemma {:induction false} PrefixIsStartedPrefix(lyrics: seq<Cue>, time: real, n: nat)
    requires n <= |lyrics|
    requires forall j :: 0 <= j < n ==> lyrics[j].time <= time
    requires n < |lyrics| ==> lyrics[n].time > time
    ensures StartedPrefix(lyrics, time) == n
  {
    if n > 0 {
      assert lyrics[0].time <= time;
      PrefixIsStartedPrefix(lyrics[1..], time, n - 1);
    }
  }

  // ---------------------------------------------------------------------
  // The lyrics element and the index of the cue it shows
  // ---------------------------------------------------------------------

  class LyricsDisplay {
    /** userData.music.timeSync; None before the data is loaded or when the list is missing. */
    var timeSync: Option<seq<Cue>>
    /** The module-level currentLyricIndex: the cue rendered last, -1 at first. */
    var currentLyricIndex: int
    /** The HTML content of the lyrics element. */
    var html: string

    /** Page load: no data yet, no cue shown, the element's markup as given. */
    constructor (initialHtml: string)
      ensures timeSync == None && currentLyricIndex == -1 && html == initialHtml
    {
      timeSync := None;
      currentLyricIndex := -1;
      html := initialHtml;
    }

    /**
     * initializeFromJSON, lyrics part: keep the list and show the first cue's
     * text if there is one. The shown index is left as it was.
     */
    method Load(lyrics: Option<seq<Cue>>)
      modifies this
      ensures timeSync == lyrics
      ensures currentLyricIndex == old(currentLyricIndex)
      ensures html == if lyrics.Some? && |lyrics.value| > 0 then FormatLyric(lyrics.value[0].text) else old(html)
    {
      timeSync := lyrics;
      if lyrics.Some? && |lyrics.value| > 0 {
        html := FormatLyric(lyrics.value[0].text);
      }
    }

    /**
     * updateLyricsDisplay(time): re-render iff a cue has started and it is
     * not the one shown last. `changed` reports a re-render and `cue` the cue
     * the scan found.
     */
    method Update(time: real) returns (changed: bool, cue: Option<Cue>)
      modifies this
      ensures timeSync == old(timeSync)
      ensures timeSync.None? ==> !changed && cue == None
      ensures timeSync.Some? ==>
                var i := SelectedIndex(timeSync.value, time);
                && cue == (if i == -1 then None else Some(timeSync.value[i]))
                && changed == (i != -1 && i != old(currentLyricIndex))
      ensures currentLyricIndex == if changed then SelectedIndex(timeSync.value, time) else old(currentLyricIndex)
      ensures html == if changed then FormatLyric(cue.value.text) else old(html)
    {
      changed, cue := false, None;
      if timeSync.None? {
        return;
      }
      var lyrics := timeSync.value;
      var currentLyric, newLyricIndex := ScanCues(lyrics, time);
      cue := currentLyric;
      if currentLyric.Some? && newLyricIndex != currentLyricIndex {
        currentLyricIndex := newLyricIndex;
        html := FormatLyric(currentLyric.value.text);
        changed := true;
      }
    }
  }

  /**
   * Two updates at the same time: the second finds the cue already shown and
   * reports no change, so the lyrics are rendered at most once per cue. The
   * state after both is what one update leaves: the started cue's index and
   * text if it differs from the one shown before, else the old index and HTML.
   */
  method UpdateTwiceSameTime(display: LyricsDisplay, time: real) returns (changedAgain: bool)
    modifies display
    ensures !changedAgain
    ensures display.timeSync == old(display.timeSync)
    ensures display.timeSync.None? ==>
              display.currentLyricIndex == old(display.currentLyricIndex) && display.html == old(display.html)
    ensures display.timeSync.Some? ==>
              var i := SelectedIndex(display.timeSync.value, time);
              var rendered := i != -1 && i != old(display.currentLyricIndex);
              && display.currentLyricIndex == (if i != -1 then i else old(display.currentLyricIndex))
              && display.html == (if rendered then FormatLyric(display.timeSync.value[i].text) else old(display.html))
  {
    var changedFirst, cueFirst := display.Update(time);
    var cueAgain;
    changedAgain, cueAgain := display.Update(time);
  }
}

module LyricsScenario {
  import opened Wrappers
  import opened Lyrics

  /**
   * A song with cues at 0 s ("Intro"), 30 s ("Verse") and 90 s ("Chorus"),
   * played through 0, 15, 30, 45 and 90 s: the lyrics change at 0, 30 and
   * 90 s only.
   */
  method ThreeCueSong() returns (changes: seq<bool>)
    ensures changes == [true, false, true, false, true]
  {
    var track := [Cue(0.0, "Intro"), Cue(30.0, "Verse"), Cue(90.0, "Chorus")];
    assert track[1..] == [Cue(30.0, "Verse"), Cue(90.0, "Chorus")];
    assert track[1..][1..] == [Cue(90.0, "Chorus")];
    assert track[1..][1..][1..] == [];
    assert SelectedIndex(track, 0.0) == 0;
    assert SelectedIndex(track, 15.0) == 0;
    assert SelectedIndex(track, 30.0) == 1;
    assert SelectedIndex(track, 45.0) == 1;
    assert SelectedIndex(track, 90.0) == 2;
    var display := new LyricsDisplay("");
    display.Load(Some(track));
    var c0, _ := display.Update(0.0);
    var c1, _ := display.Update(15.0);
    var c2, _ := display.Update(30.0);
    var c3, _ := display.Update(45.0);
    var c4, _ := display.Update(90.0);
    changes := [c0, c1, c2, c3, c4];
  }
}
