/** The PIT viewer: shows each timer channel's state as named state strings, and ages each
    string from one update to the next so that freshly changed entries stand out. */
module PitViewers {
  import opened MachineInts
  import opened Wrappers
  import opened SyntaxTokens

  /** One timer channel's display entries, by name. */
  type Channel = map<string, SyntaxToken>

  /** The display state of the timer: one entry map per channel. */
  type PitDisplayState = seq<Channel>

  /** The entry shown under `key` for channel `i` before this update, if there was one. */
  function PreviousEntry(previous: PitDisplayState, i: nat, key: string): Option<SyntaxToken> {
    if i < |previous| && key in previous[i] then Some(previous[i][key]) else None
  }

  /** The age rule for one entry: a dirty state string is brand new, a clean one that was
      shown as a state string before ages by two (saturating), and anything else is kept as
      supplied. */
  function AgeEntry(value: SyntaxToken, before: Option<SyntaxToken>): SyntaxToken {
    match value
    case StateString(text, dirty, _) =>
      if dirty then StateString(text, dirty, 0)
      else (match before
            case Some(StateString(_, _, oldAge)) => StateString(text, dirty, NextAge(oldAge))
            case _ => value)
    case _ => value
  }

  function AgeChannel(channel: Channel, previous: PitDisplayState, i: nat): Channel {
    map key | key in channel :: AgeEntry(channel[key], PreviousEntry(previous, i, key))
  }

  /** What `update_state` stores, given the incoming state and the state shown so far. */
  function AgeState(incoming: PitDisplayState, previous: PitDisplayState): PitDisplayState {
    seq(|incoming|, i requires 0 <= i < |incoming| => AgeChannel(incoming[i], previous, i))
  }

  /** The update keeps the channels and the entry names of the incoming state, and changes
      nothing but the age of a state string. */
  lemma AgeStateKeepsShape(incoming: PitDisplayState, previous: PitDisplayState)
    ensures |AgeState(incoming, previous)| == |incoming|
    ensures forall i :: 0 <= i < |incoming| ==> AgeState(incoming, previous)[i].Keys == incoming[i].Keys
    ensures forall i, key :: 0 <= i < |incoming| && key in incoming[i] ==>
      WithAge(AgeState(incoming, previous)[i][key], 0) == WithAge(incoming[i][key], 0)
  {
  }

  /** The cases of the age rule, entry by entry. */
  lemma AgeStateRules(incoming: PitDisplayState, previous: PitDisplayState, i: nat, key: string)
    requires i < |incoming| && key in incoming[i]
    ensures var v := incoming[i][key];
      v.StateString? && v.dirty ==> AgeState(incoming, previous)[i][key] == WithAge(v, 0)
    ensures var v := incoming[i][key];
      v.StateString? && !v.dirty && i < |previous| && key in previous[i] && previous[i][key].StateString?
      ==> AgeState(incoming, previous)[i][key] == WithAge(v, NextAge(previous[i][key].age))
    ensures var v := incoming[i][key];
      v.StateString? && !v.dirty && (i >= |previous| || key !in previous[i] || !previous[i][key].StateString?)
      ==> AgeState(incoming, previous)[i][key] == v
    ensures !incoming[i][key].StateString? ==> AgeState(incoming, previous)[i][key] == incoming[i][key]
  {
  }

  /** The state shown after the same clean state string has been supplied for `frames` further
      updates: it fades by two per update from the age it was first shown with. */
  function ShownEntry(v: SyntaxToken, frames: nat): SyntaxToken {
    if frames == 0 then v else AgeEntry(v, Some(ShownEntry(v, frames - 1)))
  }

  lemma {:induction false} SteadyEntryFades(v: SyntaxToken, frames: nat)
    ensures v.StateString? && !v.dirty ==> ShownEntry(v, frames) == WithAge(v, Faded(v.age, frames))
    ensures v.StateString? && v.dirty && frames > 0 ==> ShownEntry(v, frames) == WithAge(v, 0)
    ensures !v.StateString? ==> ShownEntry(v, frames) == v
  {
    if frames > 0 {
      SteadyEntryFades(v, frames - 1);
    }
  }

  /** The body of the inner loop of `update_state`: the aged entry stored under `key`. */
  method AgeEntryValue(incoming: SyntaxToken, previous: PitDisplayState, i: nat, key: string)
    returns (value: SyntaxToken)
    ensures value == AgeEntry(incoming, PreviousEntry(previous, i, key))
  {
    value := incoming;
    match incoming {
      case StateString(text, dirty, _) =>
        if dirty {
          value := StateString(text, dirty, 0);
        } else if i < |previous| {
          if key in previous[i] {
            match previous[i][key] {
              case StateString(_, _, oldAge) =>
                value := StateString(text, dirty, SaturatingAddU8(oldAge, 2));
              case _ =>
            }
          }
        }
      case _ =>
    }
  }

  /** The inner loop of `update_state`: ages the entries of channel `i` one key at a time
      against the state shown before. */
  method AgeChannelEntries(incoming: Channel, previous: PitDisplayState, i: nat) returns (channel: Channel)
    ensures channel == AgeChannel(incoming, previous, i)
  {
    channel := incoming;
    var remaining := channel.Keys;
    while remaining != {}
      invariant remaining <= channel.Keys == incoming.Keys
      invariant forall key :: key in channel && key !in remaining ==>
        channel[key] == AgeEntry(incoming[key], PreviousEntry(previous, i, key))
      invariant forall key :: key in remaining ==> channel[key] == incoming[key]
      decreases remaining
    {
      var key :| key in remaining;
      var value := AgeEntryValue(channel[key], previous, i, key);
      channel := channel[key := value];
      remaining := remaining - {key};
    }
  }

  class PitViewerControl {
    var pitState: PitDisplayState
    /** The three channels' output samples (`[Vec<u8>; 3]`). */
    var channelVecs: array<seq<u8>>

    ghost predicate Valid()
      reads this
    {
      channelVecs.Length == 3
    }

    constructor ()
      ensures Valid() && fresh(channelVecs)
      ensures pitState == [] && channelVecs[..] == [[], [], []]
    {
      pitState := [];
      channelVecs := new seq<u8>[3](_ => []);
    }

    method UpdateState(state: PitDisplayState)
      requires Valid()
      modifies this
      ensures Valid() && channelVecs == old(channelVecs)
      ensures pitState == AgeState(state, old(pitState))
    {
      var newState := state;
      var i := 0;
      while i < |newState|
        invariant 0 <= i <= |newState| == |state|
        invariant unchanged(this)
        invariant forall j :: 0 <= j < i ==> newState[j] == AgeChannel(state[j], pitState, j)
        invariant forall j :: i <= j < |newState| ==> newState[j] == state[j]
      {
        var channel := AgeChannelEntries(newState[i], pitState, i);
        newState := newState[i := channel];
        i := i + 1;
      }
      pitState := newState;
    }

    method UpdateChannelData(channel: nat, data: seq<u8>)
      requires Valid() && channel < 3
      modifies channelVecs
      ensures Valid()
      ensures channelVecs[..] == old(channelVecs[..])[channel := data]
    {
      channelVecs[channel] := data;
    }
  }
}
