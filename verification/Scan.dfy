/**
 * The editor's scan: a second machine over the raw lines that records where a package's
 * lines are. It never parses the file into rules; the editor works on these positions.
 */
module Scan {
  import opened Text
  import opened RuleSyntax

  datatype PkgLine =
    | Standalone(idx: nat)
    | OpenInline(idx: nat)
    | OpenBare(idx: nat)
    | OpenPending(idx: nat)

  datatype Loc = Loc(name: string, idx: nat, single: bool, closed: bool, open: bool)

  /** The records; thread positions are kept in file order, each with its thread name. */
  datatype Target = Target(
    pkgLine: Option<PkgLine>,
    blockOpen: Option<nat>,
    blockClose: Option<nat>,
    threads: seq<Loc>)

  datatype State = State(t: Target, pending: Option<nat>, inBlock: bool, target: bool)

  const Fresh := State(Target(None, None, None, []), None, false, false)

  function NotePkg(t: Target, l: PkgLine): Target {
    if t.pkgLine.None? then t.(pkgLine := Some(l)) else t
  }

  function NoteOpen(t: Target, i: nat): Target {
    if t.blockClose.None? then t.(blockOpen := Some(i)) else t
  }

  function NoteClose(t: Target, target: bool, i: nat): Target {
    if target && t.blockClose.None? then t.(blockClose := Some(i)) else t
  }

  function NoteThread(t: Target, l: Loc): Target {
    t.(threads := t.threads + [l])
  }

  function Leave(s: State, i: nat): State {
    State(NoteClose(s.t, s.target, i), s.pending, false, false)
  }

  /** One line inside a block. */
  function StepInside(s: State, inner: Inner, i: nat): State {
    match inner
    case Close => Leave(s, i)
    case Entry(name, _, closed) =>
      var s' := if s.target && name != ""
                then s.(t := NoteThread(s.t, Loc(name, i, false, closed, false))) else s;
      if closed then Leave(s', i) else s'
    case Noise(closes) => if closes then Leave(s, i) else s
  }

  /** One outer line; `waiting` is the package of the pending line, if that line still names one. */
  function StepOutside(s: State, outer: Outer, waiting: Option<string>, i: nat, pkg: string): State {
    match outer
    case Single(pg, th, _, open) =>
      var t := if pg == pkg && th != "" then NoteThread(s.t, Loc(th, i, true, false, open)) else s.t;
      State(if open && pg == pkg then NoteOpen(t, i) else t, None, open, open && pg == pkg)
    case Rule(pg, _, open) =>
      var t := if open && pg == pkg then NotePkg(NoteOpen(s.t, i), OpenInline(i))
               else if !open && pg == pkg then NotePkg(s.t, Standalone(i)) else s.t;
      State(t, None, open, open && pg == pkg)
    case BareOpen(owner) =>
      if owner != "" then
        State(if owner == pkg then NotePkg(NoteOpen(s.t, i), OpenBare(i)) else s.t, None, true, owner == pkg)
      else if s.pending.Some? then
        var mine := waiting == Some(pkg);
        State(if mine then NotePkg(NoteOpen(s.t, i), OpenPending(s.pending.value)) else s.t, None, true, mine)
      else s
    case Pending(_) => s.(pending := Some(i))
    case Junk => s.(pending := None)
  }

  /** The package a recorded pending line names. */
  function WaitingName(lines: seq<string>, pending: Option<nat>): Option<string> {
    if pending.Some? && pending.value < |lines| then
      var v := ViewOf(lines[pending.value]);
      if v.Text? && v.outer.Pending? then Some(v.outer.pkg) else None
    else None
  }

  function Step(lines: seq<string>, s: State, i: nat, pkg: string): State
    requires i < |lines|
  {
    var v := ViewOf(lines[i]);
    if v.Skip? then s
    else if s.inBlock then StepInside(s, v.inner, i)
    else StepOutside(s, v.outer, WaitingName(lines, s.pending), i, pkg)
  }

  function ScanTo(lines: seq<string>, n: nat, pkg: string): State
    requires n <= |lines|
  {
    if n == 0 then Fresh else Step(lines, ScanTo(lines, n - 1, pkg), n - 1, pkg)
  }

  function ScanOf(lines: seq<string>, pkg: string): Target {
    ScanTo(lines, |lines|, pkg).t
  }

  function Unterminated(lines: seq<string>, pkg: string): bool {
    ScanTo(lines, |lines|, pkg).inBlock
  }

  /** The scan as the source runs it. */
  method TargetScan(lines: seq<string>, pkg: string) returns (t: Target, unterminated: bool)
    ensures t == ScanOf(lines, pkg) && unterminated == Unterminated(lines, pkg)
  {
    hide ViewOf;
    var pending: Option<nat>, inBlock, targetBlock := None, false, false;
    t := Target(None, None, None, []);
    for i := 0 to |lines|
      invariant State(t, pending, inBlock, targetBlock) == ScanTo(lines, i, pkg)
      invariant targetBlock ==> inBlock
    {
      var v := ViewOf(lines[i]);
      if v.Skip? {
        continue;
      }
      if inBlock {
        var leaves := false;
        match v.inner {
          case Close => leaves := true;
          case Entry(name, _, closed) =>
            if targetBlock && name != "" {
              t := t.(threads := t.threads + [Loc(name, i, false, closed, false)]);
            }
            leaves := closed;
          case Noise(closes) => leaves := closes;
        }
        if leaves {
          if targetBlock && t.blockClose.None? { t := t.(blockClose := Some(i)); }
          inBlock, targetBlock := false, false;
        }
        continue;
      }
      match v.outer {
        case Single(pg, th, _, open) =>
          pending := None;
          if pg == pkg && th != "" {
            t := t.(threads := t.threads + [Loc(th, i, true, false, open)]);
          }
          if open {
            inBlock := true;
            if pg == pkg { targetBlock := true; t := NoteOpen(t, i); }
          }
        case Rule(pg, _, open) =>
          pending := None;
          if open {
            inBlock := true;
            if pg == pkg {
              targetBlock := true;
              t := NotePkg(NoteOpen(t, i), OpenInline(i));
            }
          } else if pg == pkg {
            t := NotePkg(t, Standalone(i));
          }
        case BareOpen(owner) =>
          if owner != "" {
            pending, inBlock := None, true;
            if owner == pkg {
              targetBlock := true;
              t := NotePkg(NoteOpen(t, i), OpenBare(i));
            }
          } else if pending.Some? {
            var pi := pending.value;
            pending, inBlock := None, true;
            if WaitingName(lines, Some(pi)) == Some(pkg) {
              targetBlock := true;
              t := NotePkg(NoteOpen(t, i), OpenPending(pi));
            }
          }
        case Pending(_) => pending := Some(i);
        case Junk => pending := None;
      }
    }
    unterminated := inBlock;
  }

  // ---- reading the records

  /** Which thread positions an edit looks at. */
  datatype Sel = SinglesOnly | Named(name: string)

  predicate Picked(sel: Sel, l: Loc) {
    match sel
    case SinglesOnly => l.single
    case Named(name) => l.name == name
  }

  function Pick(locs: seq<Loc>, sel: Sel): seq<Loc> {
    if locs == [] then [] else (if Picked(sel, locs[0]) then [locs[0]] else []) + Pick(locs[1..], sel)
  }

  function Singles(locs: seq<Loc>): seq<Loc> { Pick(locs, SinglesOnly) }

  /** The package appears on some outer line. */
  predicate AnyLine(t: Target) {
    t.pkgLine.Some? || Singles(t.threads) != []
  }
}
