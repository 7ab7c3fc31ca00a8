/** The bounded output history of the server (OutputHistory, server/src/main.rs).

    `lines` plays the VecDeque: oldest line first. The ghost field `added` is every line
    appended since the buffer was created or last cleared, so the FIFO law is an object
    invariant: the stored lines are always the newest `Capacity(maxLines)` lines of `added`.
 */
module History {

  /** How many lines the buffer actually retains. `add_line` pops the front whenever the
      length is at least `max_lines` and then pushes, so with `max_lines == 0` one line
      survives each call; for every other value the bound is `max_lines` itself. */
  function Capacity(maxLines: nat): (c: nat)
    ensures maxLines == 0 ==> c == 1
    ensures maxLines >= 1 ==> c == maxLines
  {
    if maxLines == 0 then 1 else maxLines
  }

  /** The newest `n` elements of `s` (all of them when `s` is shorter), in order. */
  function Window(s: seq<string>, n: nat): (r: seq<string>)
    ensures |r| == if |s| < n then |s| else n
  {
    if |s| < n then s else s[|s| - n..]
  }

  /** The lines after one `add_line(line)` on a buffer holding `lines`. */
  function Added(lines: seq<string>, maxLines: nat, line: string): (r: seq<string>)
    // the new line is the newest entry
    ensures |r| >= 1 && r[|r| - 1] == line
    // the oldest entry is dropped exactly when the buffer was already full
    ensures |r| == if |lines| >= maxLines && lines != [] then |lines| else |lines| + 1
    // the length bound is preserved; with no capacity at all only the new line is kept
    ensures |lines| <= Capacity(maxLines) ==> |r| <= Capacity(maxLines)
    ensures maxLines == 0 && |lines| <= 1 ==> r == [line]
  {
    var kept := if |lines| >= maxLines && lines != [] then lines[1..] else lines;
    kept + [line]
  }

  /** What `add_line` keeps of the old lines is their newest part, in order. */
  lemma AddedKeepsNewest(lines: seq<string>, maxLines: nat, line: string)
    ensures Added(lines, maxLines, line) == Window(lines, |Added(lines, maxLines, line)| - 1) + [line]
  {
  }

  /** One `add_line` on the window of a log is the window of the log extended by that line. */
  lemma AddedWindow(log: seq<string>, maxLines: nat, line: string)
    ensures Added(Window(log, Capacity(maxLines)), maxLines, line)
         == Window(log + [line], Capacity(maxLines))
  {
  }

  /** The history buffer with its capacity, as created by `OutputHistory::new`. */
  class OutputHistory {
    var lines: seq<string>
    const maxLines: nat
    /** Every line added since creation or the last clear, oldest first. */
    ghost var added: seq<string>

    ghost predicate Valid()
      reads this
    {
      lines == Window(added, Capacity(maxLines))
    }

    constructor (maxLines: nat)
      ensures Valid()
      ensures this.maxLines == maxLines
      ensures lines == [] && added == []
    {
      this.maxLines := maxLines;
      lines := [];
      added := [];
    }

    /** `add_line`: drop the oldest line if the buffer is full, then append. */
    method AddLine(line: string)
      requires Valid()
      modifies this
      ensures Valid()
      ensures lines == Added(old(lines), maxLines, line)
      ensures added == old(added) + [line]
      ensures maxLines >= 1 ==> |lines| <= maxLines
    {
      AddedWindow(added, maxLines, line);
      if |lines| >= maxLines {
        // `VecDeque::pop_front` does nothing on an empty deque
        if lines != [] {
          lines := lines[1..];
        }
      }
      lines := lines + [line];
      added := added + [line];
    }

    /** `get_all`: a copy of the stored lines, oldest first. */
    function GetAll(): (r: seq<string>)
      requires Valid()
      reads this
      ensures r == Window(added, Capacity(maxLines))
      ensures |r| <= Capacity(maxLines)
    {
      lines
    }

    /** Emptying the deque, as `clear_history` does to `lines`. */
    method Clear()
      modifies this
      ensures Valid()
      ensures lines == [] && added == []
    {
      lines := [];
      added := [];
    }
  }
}
