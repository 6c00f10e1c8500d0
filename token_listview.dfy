/** The token list view: a scrollable list of rows of syntax tokens. When the memory viewer
    hands it a new window of rows, each memory-byte token is aged against the token that
    stood at the same position before, so that changed bytes stand out and fade. */
module TokenListViews {
  import opened MachineInts
  import opened SyntaxTokens

  type Rows = seq<seq<SyntaxToken>>

  /** A memory byte in a view whose row count changed is treated as old news (no flash). */
  function WithMaxAge(t: SyntaxToken): SyntaxToken {
    match t
    case MemoryByteHexValue(_, _, _, _, _) => WithAge(t, TOKEN_MAX_AGE)
    case MemoryByteAsciiValue(_, _, _, _) => WithAge(t, TOKEN_MAX_AGE)
    case _ => t
  }

  /** The age rule for one incoming token against the token previously at its position:
      only two memory-byte tokens of the same variant are compared. */
  function AgeToken(incoming: SyntaxToken, previous: SyntaxToken): SyntaxToken {
    match (incoming, previous)
    case (MemoryByteHexValue(newAddr, newVal, _, _, _), MemoryByteHexValue(oldAddr, oldVal, _, _, oldAge)) =>
      if oldAddr == newAddr then
        if oldVal == newVal then WithAge(incoming, NextAge(oldAge)) else incoming
      else
        WithAge(incoming, TOKEN_MAX_AGE)
    case (MemoryByteAsciiValue(newAddr, newVal, _, _), MemoryByteAsciiValue(oldAddr, oldVal, _, oldAge)) =>
      if oldAddr == newAddr then
        if oldVal == newVal then WithAge(incoming, NextAge(oldAge)) else incoming
      else
        WithAge(incoming, TOKEN_MAX_AGE)
    case _ => incoming
  }

  function MaxAgeRow(row: seq<SyntaxToken>): seq<SyntaxToken> {
    if row == [] then [] else [WithMaxAge(row[0])] + MaxAgeRow(row[1..])
  }

  function MaxAgeRows(rows: Rows): Rows {
    if rows == [] then [] else [MaxAgeRow(rows[0])] + MaxAgeRows(rows[1..])
  }

  /** Incoming tokens zipped with the previous row: only positions present in both are aged. */
  function AgeRow(incoming: seq<SyntaxToken>, previous: seq<SyntaxToken>): seq<SyntaxToken> {
    if incoming == [] || previous == [] then incoming
    else [AgeToken(incoming[0], previous[0])] + AgeRow(incoming[1..], previous[1..])
  }

  /** Incoming rows zipped with the previous rows. */
  function AgeRows(incoming: Rows, previous: Rows): Rows {
    if incoming == [] || previous == [] then incoming
    else [AgeRow(incoming[0], previous[0])] + AgeRows(incoming[1..], previous[1..])
  }

  /** What `set_contents` stores, given the incoming rows and the rows shown so far. */
  function AgedContents(incoming: Rows, current: Rows): Rows {
    if |current| != |incoming| then MaxAgeRows(incoming) else AgeRows(incoming, current)
  }

  lemma {:induction false} MaxAgeRowPointwise(row: seq<SyntaxToken>)
    ensures |MaxAgeRow(row)| == |row|
    ensures forall k :: 0 <= k < |row| ==> MaxAgeRow(row)[k] == WithMaxAge(row[k])
  {
    if row != [] {
      MaxAgeRowPointwise(row[1..]);
    }
  }

  lemma {:induction false} MaxAgeRowsPointwise(rows: Rows)
    ensures |MaxAgeRows(rows)| == |rows|
    ensures forall r :: 0 <= r < |rows| ==> MaxAgeRows(rows)[r] == MaxAgeRow(rows[r])
  {
    if rows != [] {
      MaxAgeRowsPointwise(rows[1..]);
    }
  }

  lemma {:induction false} AgeRowPointwise(incoming: seq<SyntaxToken>, previous: seq<SyntaxToken>)
    ensures |AgeRow(incoming, previous)| == |incoming|
    ensures forall k :: 0 <= k < |incoming| ==>
      AgeRow(incoming, previous)[k] == if k < |previous| then AgeToken(incoming[k], previous[k]) else incoming[k]
  {
    if incoming != [] && previous != [] {
      AgeRowPointwise(incoming[1..], previous[1..]);
    }
  }

  lemma {:induction false} AgeRowsPointwise(incoming: Rows, previous: Rows)
    ensures |AgeRows(incoming, previous)| == |incoming|
    ensures forall r :: 0 <= r < |incoming| ==>
      AgeRows(incoming, previous)[r] == if r < |previous| then AgeRow(incoming[r], previous[r]) else incoming[r]
  {
    if incoming != [] && previous != [] {
      AgeRowsPointwise(incoming[1..], previous[1..]);
    }
  }

  /** When the row count changes, every memory byte gets TOKEN_MAX_AGE, every other token is
      kept as supplied, and the shape of the incoming rows is kept. */
  lemma ResizedContentsAreOld(incoming: Rows, current: Rows)
    requires |incoming| != |current|
    ensures |AgedContents(incoming, current)| == |incoming|
    ensures forall r :: 0 <= r < |incoming| ==> |AgedContents(incoming, current)[r]| == |incoming[r]|
    ensures forall r, k :: 0 <= r < |incoming| && 0 <= k < |incoming[r]| ==>
      AgedContents(incoming, current)[r][k] ==
        if IsMemoryByte(incoming[r][k]) then WithAge(incoming[r][k], TOKEN_MAX_AGE) else incoming[r][k]
  {
    MaxAgeRowsPointwise(incoming);
    forall r | 0 <= r < |incoming| {
      MaxAgeRowPointwise(incoming[r]);
    }
  }

  /** With an unchanged row count, each token is aged against the token at the same row and
      column, and a token past the end of the shorter row keeps its supplied age. */
  lemma SameSizeContentsAreAgedInPlace(incoming: Rows, current: Rows)
    requires |incoming| == |current|
    ensures |AgedContents(incoming, current)| == |incoming|
    ensures forall r :: 0 <= r < |incoming| ==> |AgedContents(incoming, current)[r]| == |incoming[r]|
    ensures forall r, k :: 0 <= r < |incoming| && 0 <= k < |incoming[r]| ==>
      AgedContents(incoming, current)[r][k] ==
        if k < |current[r]| then AgeToken(incoming[r][k], current[r][k]) else incoming[r][k]
  {
    AgeRowsPointwise(incoming, current);
    forall r | 0 <= r < |incoming| {
      AgeRowPointwise(incoming[r], current[r]);
    }
  }

  /** The four outcomes of the age rule for one position. */
  lemma AgeTokenRules(incoming: SyntaxToken, previous: SyntaxToken)
    ensures IsMemoryByte(incoming) && incoming.MemoryByteHexValue? == previous.MemoryByteHexValue?
            && IsMemoryByte(previous) && previous.address == incoming.address && previous.value == incoming.value
            ==> AgeToken(incoming, previous) == WithAge(incoming, NextAge(previous.age))
    ensures IsMemoryByte(incoming) && incoming.MemoryByteHexValue? == previous.MemoryByteHexValue?
            && IsMemoryByte(previous) && previous.address != incoming.address
            ==> AgeToken(incoming, previous) == WithAge(incoming, TOKEN_MAX_AGE)
    ensures IsMemoryByte(incoming) && incoming.MemoryByteHexValue? == previous.MemoryByteHexValue?
            && IsMemoryByte(previous) && previous.address == incoming.address && previous.value != incoming.value
            ==> AgeToken(incoming, previous) == incoming
    ensures !IsMemoryByte(incoming) || !IsMemoryByte(previous)
            || incoming.MemoryByteHexValue? != previous.MemoryByteHexValue?
            ==> AgeToken(incoming, previous) == incoming
  {
  }

  /** The token shown at one position after the same memory byte has been supplied for
      `|ages|` further frames, frame j carrying the age `ages[j]` its producer chose, each
      aged against what was shown the frame before. */
  function Shown(t: SyntaxToken, ages: seq<u8>): SyntaxToken
    decreases |ages|
  {
    if |ages| == 0 then t
    else AgeToken(WithAge(t, ages[|ages| - 1]), Shown(t, ages[..|ages| - 1]))
  }

  /** A memory byte that keeps its address and value fades by two per frame from its first
      age, whatever age the producer supplies each frame; any other token is shown exactly as
      it was supplied in the latest frame. */
  lemma {:induction false} SteadyByteFades(t: SyntaxToken, ages: seq<u8>)
    ensures IsMemoryByte(t) ==> Shown(t, ages) == WithAge(t, Faded(t.age, |ages|))
    ensures !IsMemoryByte(t) && |ages| > 0 ==> Shown(t, ages) == WithAge(t, ages[|ages| - 1])
    decreases |ages|
  {
    if |ages| > 0 {
      var before := ages[..|ages| - 1];
      SteadyByteFades(t, before);
      AgeTokenRules(WithAge(t, ages[|ages| - 1]), Shown(t, before));
    }
  }

  /** The default token is never aged. */
  lemma DefaultTokenIsNeverAged(previous: SyntaxToken)
    ensures AgeToken(DefaultToken(), previous) == DefaultToken()
    ensures WithMaxAge(DefaultToken()) == DefaultToken()
  {
  }

  /** One row of a view whose row count changed: every memory byte becomes old news. */
  method MarkRowOld(row: seq<SyntaxToken>) returns (tokens: seq<SyntaxToken>)
    ensures tokens == MaxAgeRow(row)
  {
    tokens := row;
    var k := 0;
    while k < |tokens|
      invariant 0 <= k <= |tokens| == |row|
      invariant forall m :: 0 <= m < k ==> tokens[m] == WithMaxAge(row[m])
      invariant forall m :: k <= m < |tokens| ==> tokens[m] == row[m]
    {
      match tokens[k] {
        case MemoryByteHexValue(_, _, _, _, _) =>
          tokens := tokens[k := WithAge(tokens[k], TOKEN_MAX_AGE)];
        case MemoryByteAsciiValue(_, _, _, _) =>
          tokens := tokens[k := WithAge(tokens[k], TOKEN_MAX_AGE)];
        case _ =>
      }
      k := k + 1;
    }
    MaxAgeRowPointwise(row);
  }

  /** One incoming row aged against the row previously at its place, position by position. */
  method AgeRowTokens(row: seq<SyntaxToken>, previous: seq<SyntaxToken>) returns (tokens: seq<SyntaxToken>)
    ensures tokens == AgeRow(row, previous)
  {
    tokens := row;
    var k := 0;
    while k < |tokens| && k < |previous|
      invariant 0 <= k <= |tokens| == |row|
      invariant k <= |previous|
      invariant forall m :: 0 <= m < k ==> tokens[m] == AgeToken(row[m], previous[m])
      invariant forall m :: k <= m < |tokens| ==> tokens[m] == row[m]
    {
      match (tokens[k], previous[k]) {
        case (MemoryByteHexValue(newAddr, newVal, _, _, _), MemoryByteHexValue(oldAddr, oldVal, _, _, oldAge)) =>
          if oldAddr == newAddr {
            if oldVal == newVal {
              // The byte has not changed: it grows older.
              tokens := tokens[k := WithAge(tokens[k], SaturatingAddU8(oldAge, 2))];
            }
          } else {
            // A different byte now sits here: show it as old so it does not flash.
            tokens := tokens[k := WithAge(tokens[k], 255)];
          }
        case (MemoryByteAsciiValue(newAddr, newVal, _, _), MemoryByteAsciiValue(oldAddr, oldVal, _, oldAge)) =>
          if oldAddr == newAddr {
            if oldVal == newVal {
              tokens := tokens[k := WithAge(tokens[k], SaturatingAddU8(oldAge, 2))];
            }
          } else {
            tokens := tokens[k := WithAge(tokens[k], 255)];
          }
        case _ =>
      }
      k := k + 1;
    }
    AgeRowPointwise(row, previous);
  }

  class TokenListView {
    var row: nat
    var previousRow: nat
    var visibleRows: nat
    var maxRows: nat
    var contents: Rows
    var hoverText: string

    constructor ()
      ensures row == 0 && previousRow == 0 && visibleRows == 16 && maxRows == 0
      ensures contents == [] && hoverText == ""
    {
      row := 0;
      previousRow := 0;
      visibleRows := 16;
      maxRows := 0;
      contents := [];
      hoverText := "";
    }

    method SetVisible(size: nat)
      modifies this
      ensures visibleRows == size
      ensures row == old(row) && previousRow == old(previousRow) && maxRows == old(maxRows)
      ensures contents == old(contents) && hoverText == old(hoverText)
    {
      visibleRows := size;
    }

    method SetCapacity(size: nat)
      modifies this
      ensures maxRows == size
      ensures row == old(row) && previousRow == old(previousRow) && visibleRows == old(visibleRows)
      ensures contents == old(contents) && hoverText == old(hoverText)
    {
      maxRows := size;
    }

    method SetHoverText(text: string)
      modifies this
      ensures hoverText == text
      ensures row == old(row) && previousRow == old(previousRow) && visibleRows == old(visibleRows)
      ensures maxRows == old(maxRows) && contents == old(contents)
    {
      hoverText := text;
    }

    method SetContents(incoming: Rows)
      modifies this
      ensures contents == AgedContents(incoming, old(contents))
      ensures row == old(row) && previousRow == old(previousRow) && visibleRows == old(visibleRows)
      ensures maxRows == old(maxRows) && hoverText == old(hoverText)
    {
      var rows := incoming;
      if |contents| != |rows| {
        // The size of the contents is changing: every byte counts as new.
        var r := 0;
        while r < |rows|
          invariant 0 <= r <= |rows| == |incoming|
          invariant forall j :: 0 <= j < r ==> rows[j] == MaxAgeRow(incoming[j])
          invariant forall j :: r <= j < |rows| ==> rows[j] == incoming[j]
          invariant unchanged(this)
        {
          var tokens := MarkRowOld(rows[r]);
          rows := rows[r := tokens];
          r := r + 1;
        }
        MaxAgeRowsPointwise(incoming);
        contents := rows;
        return;
      }

      // Age the incoming tokens against the tokens at the same positions.
      var r := 0;
      while r < |rows|
        invariant 0 <= r <= |rows| == |incoming| == |contents|
        invariant unchanged(this)
        invariant forall j :: 0 <= j < r ==> rows[j] == AgeRow(incoming[j], contents[j])
        invariant forall j :: r <= j < |rows| ==> rows[j] == incoming[j]
      {
        var tokens := AgeRowTokens(rows[r], contents[r]);
        rows := rows[r := tokens];
        r := r + 1;
      }
      AgeRowsPointwise(incoming, contents);
      contents := rows;
    }
  }
}
