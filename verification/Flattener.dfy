/** The traversal of solidityFlattener.pl: an import line is replaced by the
    imported file, unless a file of that name was seen before. */
module Flattener {

  /** A file, by the directory it is in and its name there. However a path to
      it is spelled, it is the same file; the traversal tells files apart by
      their names alone. */
  datatype Path = Path(dir: string, base: string)

  /** A line as the pattern matches sort it; an import names the file that its
      path leads to from the directory of the importing file. */
  datatype Line = Import(target: Path) | Pragma(text: string) | Other(text: string)

  type Files = map<Path, seq<Line>>

  /** A line of the output, by where it comes from. */
  datatype Place = Place(file: Path, line: nat)

  /** `seen` is the table of the program. Which files were processed, where the
      output comes from, which import lines were passed, and how many lines had
      been printed when they were, is kept for the sake of the proofs. */
  datatype State = State(
    seen: set<string>,
    processed: set<Path>,
    output: seq<Place>,
    passed: seq<Place>,
    marks: seq<nat>)

  const START: State := State({}, {}, [], [], [])

  /** The program stops at the first file it cannot open. */
  datatype Result = Flattened(state: State) | Unreadable(path: Path)

  predicate Keeps(line: Line, top: bool) {
    line.Other? || (line.Pragma? && top)
  }

  function Unseen(files: Files, seen: set<string>): set<string> {
    (set p | p in files :: p.base) - seen
  }

  lemma Subset<T>(a: set<T>, b: set<T>)
    requires a <= b
    ensures |a| <= |b|
    ensures a != b ==> |a| < |b|
  {
    assert b == a + (b - a);
    assert |b| == |a| + |b - a|;
    if a != b { assert b - a != {}; }
  }

  /** What bounds the traversal: the names it has not seen yet. */
  function Left(files: Files, seen: set<string>): nat {
    |Unseen(files, seen)|
  }

  lemma LessLeft(files: Files, seen: set<string>, seen': set<string>)
    requires seen <= seen'
    ensures Left(files, seen') <= Left(files, seen)
  {
    Subset(Unseen(files, seen'), Unseen(files, seen));
  }

  lemma EnterLeavesLess(files: Files, s: State, sol: Path)
    requires sol in files && sol.base !in s.seen
    ensures Left(files, Enter(s, sol).seen) < Left(files, s.seen)
  {
    assert sol.base in Unseen(files, s.seen) && sol.base !in Unseen(files, Enter(s, sol).seen);
    Subset(Unseen(files, Enter(s, sol).seen), Unseen(files, s.seen));
  }

  function Enter(s: State, sol: Path): State {
    s.(seen := s.seen + {sol.base}, processed := s.processed + {sol})
  }

  function Emit(s: State, place: Place): State {
    s.(output := s.output + [place])
  }

  /** The line itself, once what it pulls in is done: an import is passed, any
      other line is printed or dropped. */
  function Pass(files: Files, sol: Path, i: nat, level: nat, s: State): State
    requires sol in files && i < |files[sol]|
  {
    if files[sol][i].Import? then
      s.(passed := s.passed + [Place(sol, i)], marks := s.marks + [|s.output|])
    else if Keeps(files[sol][i], level == 0) then
      Emit(s, Place(sol, i))
    else
      s
  }

  /** The line pulls another file in. */
  predicate Pulls(files: Files, sol: Path, i: nat, s: State)
    requires sol in files && i < |files[sol]|
  {
    files[sol][i].Import? && files[sol][i].target.base !in s.seen
  }

  function Process(files: Files, sol: Path, level: nat, s: State): (r: Result)
    requires sol.base !in s.seen
    ensures r.Flattened? ==> s.seen + {sol.base} <= r.state.seen
    decreases Left(files, s.seen), 0, 0
  {
    if sol in files then
      EnterLeavesLess(files, s, sol);
      Lines(files, sol, 0, level, Enter(s, sol))
    else
      Unreadable(sol)
  }

  /** The loop over the lines of a file, from line i on. */
  function Lines(files: Files, sol: Path, i: nat, level: nat, s: State): (r: Result)
    requires sol in files && i <= |files[sol]|
    ensures r.Flattened? ==> s.seen <= r.state.seen
    decreases Left(files, s.seen), |files[sol]| - i, 2
  {
    if i == |files[sol]| then Flattened(s) else
      match OneLine(files, sol, i, level, s)
      case Unreadable(p) => Unreadable(p)
      case Flattened(s1) =>
        LessLeft(files, s.seen, s1.seen);
        Lines(files, sol, i + 1, level, s1)
  }

  /** The body of the loop. */
  function OneLine(files: Files, sol: Path, i: nat, level: nat, s: State): (r: Result)
    requires sol in files && i < |files[sol]|
    ensures r.Flattened? ==> s.seen <= r.state.seen
    decreases Left(files, s.seen), |files[sol]| - i, 1
  {
    match Pull(files, sol, i, level, s)
    case Unreadable(p) => Unreadable(p)
    case Flattened(s1) => Flattened(Pass(files, sol, i, level, s1))
  }

  function Pull(files: Files, sol: Path, i: nat, level: nat, s: State): (r: Result)
    requires sol in files && i < |files[sol]|
    ensures r.Flattened? ==> s.seen <= r.state.seen
    decreases Left(files, s.seen), |files[sol]| - i, 0
  {
    if Pulls(files, sol, i, s) then Process(files, files[sol][i].target, level + 1, s) else Flattened(s)
  }

  /** The traversal without the file calls in between. */
  lemma Unroll(files: Files, sol: Path, i: nat, level: nat, s: State)
    requires sol in files && i <= |files[sol]|
    ensures i == |files[sol]| ==> Lines(files, sol, i, level, s) == Flattened(s)
    ensures i < |files[sol]| ==>
      && (Lines(files, sol, i, level, s) ==
            match Pull(files, sol, i, level, s)
            case Unreadable(p) => Unreadable(p)
            case Flattened(s1) => Lines(files, sol, i + 1, level, Pass(files, sol, i, level, s1)))
      && (Pull(files, sol, i, level, s) ==
            if Pulls(files, sol, i, s) then Process(files, files[sol][i].target, level + 1, s) else Flattened(s))
      && (Pulls(files, sol, i, s) ==>
            var t := files[sol][i].target;
            Process(files, t, level + 1, s) ==
              if t in files then Lines(files, t, 0, level + 1, Enter(s, t)) else Unreadable(t))
  {
  }

  // Reachability.

  predicate Imports(files: Files, p: Path, k: nat, t: Path) {
    p in files && k < |files[p]| && files[p][k] == Import(t)
  }

  ghost predicate Steps(files: Files, p: Path, q: Path, n: nat)
    decreases n
  {
    if n == 0 then p == q else exists m, k: nat :: Steps(files, p, m, n - 1) && Imports(files, m, k, q)
  }

  ghost predicate Reaches(files: Files, p: Path, q: Path) {
    exists n: nat :: Steps(files, p, q, n)
  }

  lemma ReachesSelf(files: Files, p: Path)
    ensures Reaches(files, p, p)
  {
    assert Steps(files, p, p, 0);
  }

  lemma ReachesNext(files: Files, p: Path, q: Path, k: nat, t: Path)
    requires Reaches(files, p, q) && Imports(files, q, k, t)
    ensures Reaches(files, p, t)
  {
    var n: nat :| Steps(files, p, q, n);
    assert Steps(files, p, t, n + 1);
  }

  // What was processed.

  /** Every name seen belongs to exactly one processed file. */
  ghost predicate Tidy(s: State) {
    && (forall p :: p in s.processed ==> p.base in s.seen)
    && (forall b :: b in s.seen ==> exists p :: p in s.processed && p.base == b)
    && (forall p, q :: p in s.processed && q in s.processed && p.base == q.base ==> p == q)
  }

  lemma EnterTidy(s: State, sol: Path)
    requires Tidy(s) && sol.base !in s.seen
    ensures Tidy(Enter(s, sol))
  {
    var s' := Enter(s, sol);
    forall b | b in s'.seen
      ensures exists p :: p in s'.processed && p.base == b
    {
      if b == sol.base {
        assert sol in s'.processed;
      } else {
        var p :| p in s.processed && p.base == b;
        assert p in s'.processed;
      }
    }
  }

  lemma PassKeeps(files: Files, sol: Path, i: nat, level: nat, s: State)
    requires sol in files && i < |files[sol]|
    ensures var s' := Pass(files, sol, i, level, s); s'.seen == s.seen && s'.processed == s.processed
  {
  }

  lemma PassTidy(files: Files, sol: Path, i: nat, level: nat, s: State)
    requires sol in files && i < |files[sol]| && Tidy(s)
    ensures Tidy(Pass(files, sol, i, level, s))
  {
  }

  lemma {:induction false} LinesTidy(files: Files, sol: Path, i: nat, level: nat, s: State)
    requires sol in files && i <= |files[sol]| && Tidy(s)
    requires Lines(files, sol, i, level, s).Flattened?
    ensures Tidy(Lines(files, sol, i, level, s).state)
    ensures s.processed <= Lines(files, sol, i, level, s).state.processed
    decreases Left(files, s.seen), |files[sol]| - i
  {
    hide Left, Process, Pull, Pass, Lines, OneLine, Tidy;
    Unroll(files, sol, i, level, s);
    if i < |files[sol]| {
      var s1 := Pull(files, sol, i, level, s).state;
      if Pulls(files, sol, i, s) {
        var t := files[sol][i].target;
        EnterTidy(s, t);
        EnterLeavesLess(files, s, t);
        LinesTidy(files, t, 0, level + 1, Enter(s, t));
      }
      PassTidy(files, sol, i, level, s1);
      PassKeeps(files, sol, i, level, s1);
      LessLeft(files, s.seen, s1.seen);
      LinesTidy(files, sol, i + 1, level, Pass(files, sol, i, level, s1));
    }
  }

  /** All processed files can be reached from the root. */
  ghost predicate FromRoot(files: Files, root: Path, s: State) {
    forall p :: p in s.processed ==> Reaches(files, root, p)
  }

  lemma {:induction false} LinesFromRoot(files: Files, root: Path, sol: Path, i: nat, level: nat, s: State)
    requires sol in files && i <= |files[sol]|
    requires FromRoot(files, root, s) && Reaches(files, root, sol)
    ensures match Lines(files, sol, i, level, s)
            case Flattened(s') => FromRoot(files, root, s')
            case Unreadable(p) => p !in files && Reaches(files, root, p)
    decreases Left(files, s.seen), |files[sol]| - i
  {
    hide Left, Process, Pull, Pass, Lines, OneLine, Reaches;
    Unroll(files, sol, i, level, s);
    if i < |files[sol]| {
      if Pulls(files, sol, i, s) {
        var t := files[sol][i].target;
        ReachesNext(files, root, sol, i, t);
        if t in files {
          EnterLeavesLess(files, s, t);
          LinesFromRoot(files, root, t, 0, level + 1, Enter(s, t));
        }
      }
      var r := Pull(files, sol, i, level, s);
      if r.Flattened? {
        PassKeeps(files, sol, i, level, r.state);
        LessLeft(files, s.seen, r.state.seen);
        LinesFromRoot(files, root, sol, i + 1, level, Pass(files, sol, i, level, r.state));
      }
    }
  }

  /** From line i on, whatever the file imports has been seen. */
  ghost predicate ImportsSeen(files: Files, p: Path, i: nat, seen: set<string>) {
    p in files && forall k: nat, t :: i <= k && Imports(files, p, k, t) ==> t.base in seen
  }

  lemma {:induction false} LinesFollowImports(files: Files, sol: Path, i: nat, level: nat, s: State)
    requires sol in files && i <= |files[sol]| && Tidy(s)
    requires Lines(files, sol, i, level, s).Flattened?
    ensures var s' := Lines(files, sol, i, level, s).state;
      && ImportsSeen(files, sol, i, s'.seen)
      && forall q :: q in s'.processed && q !in s.processed ==> ImportsSeen(files, q, 0, s'.seen)
    decreases Left(files, s.seen), |files[sol]| - i
  {
    hide Left, Process, Pull, Pass, Lines, OneLine, Tidy;
    Unroll(files, sol, i, level, s);
    if i < |files[sol]| {
      var s1 := Pull(files, sol, i, level, s).state;
      if Pulls(files, sol, i, s) {
        var t := files[sol][i].target;
        EnterTidy(s, t);
        EnterLeavesLess(files, s, t);
        LinesTidy(files, t, 0, level + 1, Enter(s, t));
        LinesFollowImports(files, t, 0, level + 1, Enter(s, t));
      }
      PassTidy(files, sol, i, level, s1);
      PassKeeps(files, sol, i, level, s1);
      LessLeft(files, s.seen, s1.seen);
      LinesFollowImports(files, sol, i + 1, level, Pass(files, sol, i, level, s1));
    }
  }

  /** No two files that can be reached have the same name. */
  ghost predicate NamesTellApart(files: Files, root: Path) {
    forall p, q :: Reaches(files, root, p) && Reaches(files, root, q) && p.base == q.base ==> p == q
  }

  lemma {:induction false} ReachedIsProcessed(files: Files, root: Path, s: State, p: Path, n: nat)
    requires Tidy(s) && FromRoot(files, root, s) && NamesTellApart(files, root)
    requires root in s.processed && forall q :: q in s.processed ==> ImportsSeen(files, q, 0, s.seen)
    requires Steps(files, root, p, n)
    ensures p in s.processed
    decreases n
  {
    if n > 0 {
      var m, k: nat :| Steps(files, root, m, n - 1) && Imports(files, m, k, p);
      ReachedIsProcessed(files, root, s, m, n - 1);
      var q :| q in s.processed && q.base == p.base;
      assert Reaches(files, root, p);
    }
  }

  /** The run on a root processes files that can be reached, no two of the same
      name; and it processes all that can be reached if and only if no two of
      those have the same name. */
  lemma ProcessedIsReachable(files: Files, root: Path)
    requires Process(files, root, 0, START).Flattened?
    ensures var s := Process(files, root, 0, START).state;
      && (forall p :: p in s.processed ==> p in files && Reaches(files, root, p))
      && (forall p, q :: p in s.processed && q in s.processed && p.base == q.base ==> p == q)
      && ((forall p :: Reaches(files, root, p) ==> p in s.processed) <==> NamesTellApart(files, root))
  {
    var s := Process(files, root, 0, START).state;
    assert Tidy(START);
    EnterTidy(START, root);
    ReachesSelf(files, root);
    LinesTidy(files, root, 0, 0, Enter(START, root));
    LinesFromRoot(files, root, root, 0, 0, Enter(START, root));
    LinesFollowImports(files, root, 0, 0, Enter(START, root));
    if NamesTellApart(files, root) {
      forall p | Reaches(files, root, p)
        ensures p in s.processed
      {
        var n: nat :| Steps(files, root, p, n);
        ReachedIsProcessed(files, root, s, p, n);
      }
    }
  }

  /** The run fails only over a file that is imported and missing. If names
      tell the files apart, it fails if and only if there is one. */
  lemma FailsOnMissing(files: Files, root: Path)
    ensures var r := Process(files, root, 0, START);
      && (r.Unreadable? ==> r.path !in files && Reaches(files, root, r.path))
      && (NamesTellApart(files, root) ==>
          (r.Flattened? <==> forall p :: Reaches(files, root, p) ==> p in files))
  {
    ReachesSelf(files, root);
    if root in files {
      LinesFromRoot(files, root, root, 0, 0, Enter(START, root));
      if Process(files, root, 0, START).Flattened? {
        ProcessedIsReachable(files, root);
      }
    }
  }

  // What is printed and what is passed.

  /** The traversal keeps two lists of lines: those it printed, and the import
      lines it passed. */
  datatype List = Output | ImportLines

  function Listed(s: State, list: List): seq<Place> {
    match list
    case Output => s.output
    case ImportLines => s.passed
  }

  predicate Selects(list: List, line: Line, top: bool) {
    match list
    case Output => Keeps(line, top)
    case ImportLines => line.Import?
  }

  /** The lines of file p in a list, in its order. */
  function Of(places: seq<Place>, p: Path): seq<nat> {
    if places == [] then [] else
      var rest := Of(places[..|places| - 1], p);
      var last := places[|places| - 1];
      if last.file == p then rest + [last.line] else rest
  }

  /** The lines of a file that belong in a list, from line i on. */
  function Selected(list: List, lines: seq<Line>, top: bool, i: nat): seq<nat>
    requires i <= |lines|
    decreases |lines| - i
  {
    if i == |lines| then [] else
      (if Selects(list, lines[i], top) then [i] else []) + Selected(list, lines, top, i + 1)
  }

  /** The lines kept of a file, and its import lines. */
  function Kept(lines: seq<Line>, top: bool): seq<nat> {
    Selected(Output, lines, top, 0)
  }

  function ImportsOf(lines: seq<Line>): seq<nat> {
    Selected(ImportLines, lines, false, 0)
  }

  lemma OfAppend(places: seq<Place>, place: Place, p: Path)
    ensures Of(places + [place], p) == if place.file == p then Of(places, p) + [place.line] else Of(places, p)
  {
    assert (places + [place])[..|places|] == places;
  }

  lemma {:induction false} ImportsAnywhere(lines: seq<Line>, top: bool, i: nat)
    requires i <= |lines|
    ensures Selected(ImportLines, lines, top, i) == Selected(ImportLines, lines, false, i)
    decreases |lines| - i
  {
    if i < |lines| { ImportsAnywhere(lines, top, i + 1); }
  }

  /** What the loop adds to a list: the rest of its file, all of every file it
      pulls in (without pragmas), and nothing else. */
  ghost predicate Adds(list: List, files: Files, sol: Path, i: nat, level: nat, s: State, s': State)
    requires sol in files && i <= |files[sol]|
  {
    && Of(Listed(s', list), sol) == Of(Listed(s, list), sol) + Selected(list, files[sol], level == 0, i)
    && AddsFiles(list, files, sol, s, s')
  }

  ghost predicate AddsFiles(list: List, files: Files, sol: Path, s: State, s': State) {
    && (forall q :: q in s'.processed && q !in s.processed ==>
          q in files && Of(Listed(s', list), q) == Of(Listed(s, list), q) + Selected(list, files[q], false, 0))
    && (forall q :: q != sol && (q in s.processed || q !in s'.processed) ==>
          Of(Listed(s', list), q) == Of(Listed(s, list), q))
  }

  lemma AddsNothing(list: List, files: Files, sol: Path, level: nat, s: State)
    requires sol in files
    ensures Adds(list, files, sol, |files[sol]|, level, s, s)
  {
  }

  lemma NewToTidy(s: State, t: Path)
    requires Tidy(s) && t.base !in s.seen
    ensures t !in s.processed
  {
  }

  lemma PassAdds(list: List, files: Files, sol: Path, i: nat, level: nat, s: State, q: Path)
    requires sol in files && i < |files[sol]|
    ensures Of(Listed(Pass(files, sol, i, level, s), list), q) ==
      if q != sol then Of(Listed(s, list), q)
      else Of(Listed(s, list), q) + if Selects(list, files[sol][i], level == 0) then [i] else []
  {
    OfAppend(Listed(s, list), Place(sol, i), q);
  }

  lemma Associative(x: seq<nat>, y: seq<nat>, z: seq<nat>)
    ensures (x + y) + z == x + (y + z)
  {
  }

  lemma PassAddsFiles(list: List, files: Files, sol: Path, i: nat, level: nat, s: State, s': State)
    requires sol in files && i < |files[sol]| && sol in s.processed
    requires AddsFiles(list, files, sol, Pass(files, sol, i, level, s), s')
    ensures AddsFiles(list, files, sol, s, s')
  {
    PassKeeps(files, sol, i, level, s);
    hide Pass, Listed, Selects, Selected, Of;
    forall q | q != sol
      ensures Of(Listed(Pass(files, sol, i, level, s), list), q) == Of(Listed(s, list), q)
    {
      PassAdds(list, files, sol, i, level, s, q);
    }
  }

  lemma AddsLine(list: List, files: Files, sol: Path, i: nat, level: nat, s: State, s': State)
    requires sol in files && i < |files[sol]| && sol in s.processed
    requires Adds(list, files, sol, i + 1, level, Pass(files, sol, i, level, s), s')
    ensures Adds(list, files, sol, i, level, s, s')
  {
    var line: seq<nat> := if Selects(list, files[sol][i], level == 0) then [i] else [];
    var rest := Selected(list, files[sol], level == 0, i + 1);
    assert Selected(list, files[sol], level == 0, i) == line + rest;
    PassAdds(list, files, sol, i, level, s, sol);
    hide Pass, Listed, Selects, Selected, Of, AddsFiles;
    PassAddsFiles(list, files, sol, i, level, s, s');
    Associative(Of(Listed(s, list), sol), line, rest);
  }

  lemma AddsImport(list: List, files: Files, sol: Path, i: nat, level: nat, t: Path, s: State, s1: State, s': State)
    requires sol in files && i <= |files[sol]|
    requires sol in s.processed && t !in s.processed && t in files
    requires s.processed + {t} <= s1.processed <= s'.processed
    requires Adds(list, files, t, 0, level + 1, Enter(s, t), s1)
    requires Adds(list, files, sol, i, level, s1, s')
    ensures Adds(list, files, sol, i, level, s, s')
  {
    assert Of(Listed(s1, list), sol) == Of(Listed(s, list), sol);
    forall q | q in s'.processed && q !in s.processed
      ensures q in files && Of(Listed(s', list), q) == Of(Listed(s, list), q) + Selected(list, files[q], false, 0)
    {
      if q in s1.processed {
        assert Of(Listed(s', list), q) == Of(Listed(s1, list), q);
        assert q == t || q !in Enter(s, t).processed;
      } else {
        assert Of(Listed(s1, list), q) == Of(Listed(s, list), q);
      }
    }
    forall q | q != sol && (q in s.processed || q !in s'.processed)
      ensures Of(Listed(s', list), q) == Of(Listed(s, list), q)
    {
      assert Of(Listed(s', list), q) == Of(Listed(s1, list), q);
    }
  }

  lemma {:induction false} LinesAdd(list: List, files: Files, sol: Path, i: nat, level: nat, s: State)
    requires sol in files && i <= |files[sol]| && Tidy(s) && sol in s.processed
    requires Lines(files, sol, i, level, s).Flattened?
    ensures Adds(list, files, sol, i, level, s, Lines(files, sol, i, level, s).state)
    decreases Left(files, s.seen), |files[sol]| - i
  {
    hide Left, Process, Pull, Pass, Lines, OneLine, Tidy, Adds, Selected, Of;
    Unroll(files, sol, i, level, s);
    if i == |files[sol]| {
      AddsNothing(list, files, sol, level, s);
    } else {
      var s1 := Pull(files, sol, i, level, s).state;
      var s2 := Pass(files, sol, i, level, s1);
      if Pulls(files, sol, i, s) {
        var t := files[sol][i].target;
        EnterTidy(s, t);
        EnterLeavesLess(files, s, t);
        LinesTidy(files, t, 0, level + 1, Enter(s, t));
        LinesAdd(list, files, t, 0, level + 1, Enter(s, t));
        NewToTidy(s, t);
      }
      PassTidy(files, sol, i, level, s1);
      PassKeeps(files, sol, i, level, s1);
      LessLeft(files, s.seen, s1.seen);
      LinesTidy(files, sol, i + 1, level, s2);
      LinesAdd(list, files, sol, i + 1, level, s2);
      var s' := Lines(files, sol, i + 1, level, s2).state;
      AddsLine(list, files, sol, i, level, s1, s');
      if Pulls(files, sol, i, s) {
        AddsImport(list, files, sol, i, level, files[sol][i].target, s, s1, s');
      }
    }
  }

  lemma PrintsKept(files: Files, root: Path)
    requires Process(files, root, 0, START).Flattened?
    ensures var s := Process(files, root, 0, START).state;
      forall p :: Of(s.output, p) == if p in s.processed && p in files then Kept(files[p], p == root) else []
  {
    var s := Process(files, root, 0, START).state;
    assert s == Lines(files, root, 0, 0, Enter(START, root)).state;
    hide Process, Lines, Selected;
    EnterTidy(START, root);
    LinesTidy(files, root, 0, 0, Enter(START, root));
    LinesAdd(Output, files, root, 0, 0, Enter(START, root));
    forall p
      ensures Of(s.output, p) == if p in s.processed && p in files then Kept(files[p], p == root) else []
    {
      assert Of(START.output, p) == [];
    }
  }

  lemma PassesImports(files: Files, root: Path)
    requires Process(files, root, 0, START).Flattened?
    ensures var s := Process(files, root, 0, START).state;
      forall p :: Of(s.passed, p) == if p in s.processed && p in files then ImportsOf(files[p]) else []
  {
    var s := Process(files, root, 0, START).state;
    assert s == Lines(files, root, 0, 0, Enter(START, root)).state;
    hide Process, Lines, Selected;
    EnterTidy(START, root);
    LinesTidy(files, root, 0, 0, Enter(START, root));
    LinesAdd(ImportLines, files, root, 0, 0, Enter(START, root));
    ImportsAnywhere(files[root], true, 0);
    forall p
      ensures Of(s.passed, p) == if p in s.processed && p in files then ImportsOf(files[p]) else []
    {
      assert Of(START.passed, p) == [];
    }
  }

  lemma {:induction false} OfMembers(places: seq<Place>, p: Path, k: nat)
    ensures k in Of(places, p) <==> Place(p, k) in places
  {
    if places != [] {
      OfMembers(places[..|places| - 1], p, k);
      assert places == places[..|places| - 1] + [places[|places| - 1]];
    }
  }

  lemma {:induction false} SelectedMembers(list: List, lines: seq<Line>, top: bool, i: nat, k: nat)
    requires i <= |lines|
    ensures k in Selected(list, lines, top, i) <==> i <= k < |lines| && Selects(list, lines[k], top)
    decreases |lines| - i
  {
    if i < |lines| { SelectedMembers(list, lines, top, i + 1, k); }
  }

  ghost predicate Increasing(ks: seq<nat>) {
    forall i, j :: 0 <= i < j < |ks| ==> ks[i] < ks[j]
  }

  lemma {:induction false} SelectedIncreases(list: List, lines: seq<Line>, top: bool, i: nat)
    requires i <= |lines|
    ensures Increasing(Selected(list, lines, top, i))
    ensures forall k :: k in Selected(list, lines, top, i) ==> i <= k
    decreases |lines| - i
  {
    if i < |lines| {
      SelectedIncreases(list, lines, top, i + 1);
      var rest := Selected(list, lines, top, i + 1);
      assert forall j :: 0 <= j < |rest| ==> rest[j] in rest;
    }
  }

  /** The lines of a file come in order: no line comes twice, and none after a
      later one. */
  ghost predicate FileInOrder(places: seq<Place>, p: Path) {
    forall i, j :: 0 <= i < j < |places| && places[i].file == p && places[j].file == p ==>
      places[i].line < places[j].line
  }

  lemma {:induction false} OfOrders(places: seq<Place>, p: Path)
    requires Increasing(Of(places, p))
    ensures FileInOrder(places, p)
  {
    if places != [] {
      var n := |places| - 1;
      var most, last := places[..n], places[n];
      assert Of(places, p) == Of(most, p) + if last.file == p then [last.line] else [];
      assert Increasing(Of(most, p)) by {
        assert forall i :: 0 <= i < |Of(most, p)| ==> Of(places, p)[i] == Of(most, p)[i];
      }
      OfOrders(most, p);
      forall i | 0 <= i < n && places[i].file == p && last.file == p
        ensures places[i].line < last.line
      {
        OfMembers(most, p, places[i].line);
        assert most[i] == Place(p, places[i].line);
        var at :| 0 <= at < |Of(most, p)| && Of(most, p)[at] == places[i].line;
        assert Of(places, p)[at] < Of(places, p)[|Of(most, p)|];
      }
    }
  }

  lemma ListedExactly(list: List, files: Files, s: State, p: Path, top: bool)
    requires Of(Listed(s, list), p) == if p in s.processed && p in files then Selected(list, files[p], top, 0) else []
    ensures forall k: nat :: Place(p, k) in Listed(s, list) <==>
      p in s.processed && p in files && k < |files[p]| && Selects(list, files[p][k], top)
    ensures FileInOrder(Listed(s, list), p)
  {
    if p in s.processed && p in files {
      SelectedIncreases(list, files[p], top, 0);
    }
    OfOrders(Listed(s, list), p);
    forall k: nat
      ensures Place(p, k) in Listed(s, list) <==>
        p in s.processed && p in files && k < |files[p]| && Selects(list, files[p][k], top)
    {
      OfMembers(Listed(s, list), p, k);
      if p in s.processed && p in files { SelectedMembers(list, files[p], top, 0, k); }
    }
  }

  /** A line is printed if and only if it is in a processed file and no import,
      and, if it is a pragma, in the root. No line is printed twice, and the
      lines of a file are printed in their order. */
  lemma PrintsEachOnce(files: Files, root: Path)
    requires Process(files, root, 0, START).Flattened?
    ensures var s := Process(files, root, 0, START).state;
      && (forall p, k: nat :: Place(p, k) in s.output <==>
            && p in s.processed && p in files && k < |files[p]|
            && (files[p][k].Other? || (files[p][k].Pragma? && p == root)))
      && forall p :: FileInOrder(s.output, p)
  {
    var s := Process(files, root, 0, START).state;
    PrintsKept(files, root);
    hide Process, Of, Selected, FileInOrder;
    forall p
      ensures forall k: nat :: Place(p, k) in s.output <==>
        && p in s.processed && p in files && k < |files[p]|
        && (files[p][k].Other? || (files[p][k].Pragma? && p == root))
      ensures FileInOrder(s.output, p)
    {
      ListedExactly(Output, files, s, p, p == root);
    }
  }

  /** An import line is passed if and only if it is in a processed file, once and
      in the order of its file, and no other line is. */
  lemma PassesEachOnce(files: Files, root: Path)
    requires Process(files, root, 0, START).Flattened?
    ensures var s := Process(files, root, 0, START).state;
      && (forall p, k: nat :: Place(p, k) in s.passed <==>
            p in s.processed && p in files && k < |files[p]| && files[p][k].Import?)
      && forall p :: FileInOrder(s.passed, p)
  {
    var s := Process(files, root, 0, START).state;
    PassesImports(files, root);
    hide Process, Of, Selected, FileInOrder;
    forall p
      ensures forall k: nat :: Place(p, k) in s.passed <==>
        p in s.processed && p in files && k < |files[p]| && files[p][k].Import?
      ensures FileInOrder(s.passed, p)
    {
      ListedExactly(ImportLines, files, s, p, false);
    }
  }

  // The order of the output.

  /** No file that can be reached imports itself, not even in a roundabout way. */
  ghost predicate Acyclic(files: Files, root: Path) {
    forall p, q, k: nat :: Reaches(files, root, p) && Reaches(files, p, q) ==> !Imports(files, q, k, p)
  }

  /** An imported file, and every file that one reaches, comes before all that
      follows the import in the importing file. */
  ghost predicate InOrder(files: Files, output: seq<Place>) {
    forall a: nat, b: nat, k: nat, t,
        u {:trigger output[a], output[b], Imports(files, output[b].file, k, t), Reaches(files, t, u)} ::
      (&& a < |output| && b < |output| && k < output[b].line && Imports(files, output[b].file, k, t)
       && Reaches(files, t, u) && output[a].file == u)
      ==> a < b
  }

  /** The files that were entered and left again, if `open` are those that were
      not left yet. */
  ghost predicate Complete(s: State, open: set<Path>, p: Path) {
    p in s.processed && p !in open
  }

  /** What a complete file imports is complete, ... */
  ghost predicate Closed(files: Files, s: State, open: set<Path>) {
    forall p, k: nat, t :: Complete(s, open, p) && Imports(files, p, k, t) ==> Complete(s, open, t)
  }

  /** ... and so is what a file imports in its first i lines. */
  ghost predicate Passed(files: Files, s: State, open: set<Path>, p: Path, i: nat) {
    forall k: nat, t :: k < i && Imports(files, p, k, t) ==> Complete(s, open, t)
  }

  ghost predicate AllPassed(files: Files, s: State, open: set<Path>) {
    forall b: nat :: b < |s.output| ==> Passed(files, s, open, s.output[b].file, s.output[b].line)
  }

  /** Complete files are wholly printed, and files not entered not at all. */
  ghost predicate Full(files: Files, root: Path, s: State, open: set<Path>) {
    && (forall p :: Complete(s, open, p) ==> p in files && Of(s.output, p) == Kept(files[p], p == root))
    && (forall p :: p !in s.processed ==> Of(s.output, p) == [])
  }

  /** What the import line at a place names, and every file that one reaches, is
      wholly printed. */
  ghost predicate AlreadyOut(files: Files, root: Path, output: seq<Place>, place: Place) {
    forall t, u :: Imports(files, place.file, place.line, t) && Reaches(files, t, u) ==>
      u in files && Of(output, u) == Kept(files[u], u == root)
  }

  /** So it was whenever an import line was passed. */
  ghost predicate OnTime(files: Files, root: Path, s: State) {
    && |s.marks| == |s.passed|
    && forall n :: 0 <= n < |s.passed| ==>
         s.marks[n] <= |s.output| && AlreadyOut(files, root, s.output[..s.marks[n]], s.passed[n])
  }

  ghost predicate Ordered(files: Files, root: Path, s: State, open: set<Path>) {
    && Tidy(s) && FromRoot(files, root, s)
    && Closed(files, s, open) && AllPassed(files, s, open) && InOrder(files, s.output)
    && Full(files, root, s, open) && OnTime(files, root, s)
  }

  lemma {:induction false} CompleteReaches(files: Files, s: State, open: set<Path>, p: Path, q: Path, n: nat)
    requires Closed(files, s, open) && Complete(s, open, p) && Steps(files, p, q, n)
    ensures Complete(s, open, q)
    decreases n
  {
    if n > 0 {
      var m, k: nat :| Steps(files, p, m, n - 1) && Imports(files, m, k, q);
      CompleteReaches(files, s, open, p, m, n - 1);
    }
  }

  lemma EmitInOrder(files: Files, root: Path, s: State, open: set<Path>, sol: Path, i: nat)
    requires Ordered(files, root, s, open) && sol in open && sol in s.processed
    requires Passed(files, s, open, sol, i)
    ensures InOrder(files, Emit(s, Place(sol, i)).output)
  {
    var output := Emit(s, Place(sol, i)).output;
    forall a: nat, b: nat, k: nat, t, u |
      a < |output| && b < |output| && k < output[b].line && Imports(files, output[b].file, k, t)
      && Reaches(files, t, u) && output[a].file == u
      ensures a < b
    {
      if a == |s.output| {
        assert Complete(s, open, t) by {
          if b < |s.output| {
            assert Passed(files, s, open, s.output[b].file, s.output[b].line);
          }
        }
        var n: nat :| Steps(files, t, u, n);
        CompleteReaches(files, s, open, t, u, n);
      } else if b < |s.output| {
        assert s.output[a] == output[a] && s.output[b] == output[b];
      }
    }
  }

  lemma EmitAllPassed(files: Files, s: State, open: set<Path>, sol: Path, i: nat)
    requires AllPassed(files, s, open) && Passed(files, s, open, sol, i)
    ensures AllPassed(files, Emit(s, Place(sol, i)), open)
  {
    var s' := Emit(s, Place(sol, i));
    forall b: nat | b < |s'.output|
      ensures Passed(files, s', open, s'.output[b].file, s'.output[b].line)
    {
      if b < |s.output| {
        assert Passed(files, s, open, s.output[b].file, s.output[b].line);
      }
    }
  }

  lemma EmitFull(files: Files, root: Path, s: State, open: set<Path>, sol: Path, i: nat)
    requires Full(files, root, s, open) && sol in open && sol in s.processed
    ensures Full(files, root, Emit(s, Place(sol, i)), open)
  {
    forall p
      ensures p != sol ==> Of(Emit(s, Place(sol, i)).output, p) == Of(s.output, p)
    {
      OfAppend(s.output, Place(sol, i), p);
    }
    hide Of, Kept;
  }

  lemma EmitOnTime(files: Files, root: Path, s: State, place: Place)
    requires OnTime(files, root, s)
    ensures OnTime(files, root, Emit(s, place))
  {
    hide AlreadyOut;
    var s' := Emit(s, place);
    forall n | 0 <= n < |s'.passed|
      ensures s'.marks[n] <= |s'.output| && AlreadyOut(files, root, s'.output[..s'.marks[n]], s'.passed[n])
    {
      assert s'.output[..s'.marks[n]] == s.output[..s.marks[n]];
    }
  }

  lemma EmitOrdered(files: Files, root: Path, s: State, open: set<Path>, sol: Path, i: nat)
    requires Ordered(files, root, s, open) && sol in open && sol in s.processed
    requires Passed(files, s, open, sol, i)
    ensures Ordered(files, root, Emit(s, Place(sol, i)), open)
  {
    EmitInOrder(files, root, s, open, sol, i);
    hide AllPassed, InOrder, Full, OnTime;
    EmitAllPassed(files, s, open, sol, i);
    EmitFull(files, root, s, open, sol, i);
    EmitOnTime(files, root, s, Place(sol, i));
  }

  /** A complete import and all it reaches is out. */
  lemma CompleteIsOut(files: Files, root: Path, s: State, open: set<Path>, sol: Path, i: nat)
    requires Ordered(files, root, s, open)
    requires sol in files && i < |files[sol]| && files[sol][i].Import? && Complete(s, open, files[sol][i].target)
    ensures AlreadyOut(files, root, s.output, Place(sol, i))
  {
    forall t, u | Imports(files, sol, i, t) && Reaches(files, t, u)
      ensures u in files && Of(s.output, u) == Kept(files[u], u == root)
    {
      var n: nat :| Steps(files, t, u, n);
      CompleteReaches(files, s, open, t, u, n);
      assert Complete(s, open, u);
    }
  }

  lemma MarkOnTime(files: Files, root: Path, s: State, place: Place, s': State)
    requires OnTime(files, root, s) && AlreadyOut(files, root, s.output, place)
    requires s' == s.(passed := s.passed + [place], marks := s.marks + [|s.output|])
    ensures OnTime(files, root, s')
  {
    hide AlreadyOut;
    forall n | 0 <= n < |s'.passed|
      ensures s'.marks[n] <= |s'.output| && AlreadyOut(files, root, s'.output[..s'.marks[n]], s'.passed[n])
    {
      if n == |s.passed| {
        assert s'.output[..s'.marks[n]] == s.output;
      } else {
        assert s'.passed[n] == s.passed[n] && s'.marks[n] == s.marks[n];
      }
    }
  }

  /** The line itself, when what it imports is complete. */
  lemma PassOrdered(files: Files, root: Path, sol: Path, i: nat, level: nat, s: State, open: set<Path>)
    requires sol in files && i < |files[sol]| && sol in open && sol in s.processed
    requires Ordered(files, root, s, open) && Passed(files, s, open, sol, i)
    requires files[sol][i].Import? ==> Complete(s, open, files[sol][i].target)
    ensures var s' := Pass(files, sol, i, level, s);
      Ordered(files, root, s', open) && Passed(files, s', open, sol, i + 1)
  {
    var s' := Pass(files, sol, i, level, s);
    if files[sol][i].Import? {
      CompleteIsOut(files, root, s, open, sol, i);
      MarkOnTime(files, root, s, Place(sol, i), s');
      hide InOrder, OnTime;
    } else {
      EmitOrdered(files, root, s, open, sol, i);
      hide Ordered;
    }
  }

  lemma EnterOnTime(files: Files, root: Path, s: State, t: Path)
    requires OnTime(files, root, s)
    ensures OnTime(files, root, Enter(s, t))
  {
  }

  /** A file that is entered is open, so nothing is complete that was not. */
  lemma EnterAllPassed(files: Files, s: State, open: set<Path>, t: Path)
    requires AllPassed(files, s, open) && t !in s.processed
    ensures AllPassed(files, Enter(s, t), open + {t})
  {
    var s', open' := Enter(s, t), open + {t};
    forall b: nat | b < |s'.output|
      ensures Passed(files, s', open', s'.output[b].file, s'.output[b].line)
    {
      assert Passed(files, s, open, s.output[b].file, s.output[b].line);
    }
  }

  lemma EnterClosed(files: Files, s: State, open: set<Path>, t: Path)
    requires Closed(files, s, open) && t !in s.processed
    ensures Closed(files, Enter(s, t), open + {t})
  {
    forall p, k: nat, u | Complete(Enter(s, t), open + {t}, p) && Imports(files, p, k, u)
      ensures Complete(Enter(s, t), open + {t}, u)
    {
      assert Complete(s, open, p) && Complete(s, open, u);
    }
  }

  lemma EnterFull(files: Files, root: Path, s: State, open: set<Path>, t: Path)
    requires Full(files, root, s, open) && t !in s.processed
    ensures Full(files, root, Enter(s, t), open + {t})
  {
    hide Of, Kept;
    assert forall p :: Complete(Enter(s, t), open + {t}, p) ==> Complete(s, open, p);
  }

  lemma EnterOrdered(files: Files, root: Path, s: State, open: set<Path>, t: Path)
    requires Ordered(files, root, s, open) && t.base !in s.seen && Reaches(files, root, t)
    ensures Ordered(files, root, Enter(s, t), open + {t})
  {
    NewToTidy(s, t);
    hide Tidy, Closed, AllPassed, InOrder, Full, OnTime, Reaches;
    EnterTidy(s, t);
    EnterClosed(files, s, open, t);
    EnterAllPassed(files, s, open, t);
    EnterFull(files, root, s, open, t);
    EnterOnTime(files, root, s, t);
  }

  /** A file that is left has passed all its imports. */
  lemma LeaveOrdered(files: Files, root: Path, s: State, open: set<Path>, t: Path)
    requires Ordered(files, root, s, open + {t}) && t in files && Of(s.output, t) == Kept(files[t], t == root)
    requires Passed(files, s, open + {t}, t, |files[t]|)
    ensures Ordered(files, root, s, open)
  {
    hide InOrder, OnTime, Of, Kept;
    forall p, k: nat, u | Complete(s, open, p) && Imports(files, p, k, u)
      ensures Complete(s, open, u)
    {
      assert Complete(s, open + {t}, u);
    }
    forall b: nat | b < |s.output|
      ensures Passed(files, s, open, s.output[b].file, s.output[b].line)
    {
      assert Passed(files, s, open + {t}, s.output[b].file, s.output[b].line);
    }
  }

  /** In an acyclic graph an import of a name seen before is of a complete file:
      an open one would import itself. */
  lemma SeenIsComplete(files: Files, root: Path, s: State, open: set<Path>, sol: Path, i: nat, t: Path)
    requires Ordered(files, root, s, open) && NamesTellApart(files, root) && Acyclic(files, root)
    requires sol in s.processed && Imports(files, sol, i, t) && t.base in s.seen
    requires forall q :: q in open ==> Reaches(files, q, sol)
    ensures Complete(s, open, t)
  {
    var q :| q in s.processed && q.base == t.base;
    ReachesNext(files, root, sol, i, t);
    assert q == t;
  }

  lemma PullOrdered(files: Files, root: Path, sol: Path, i: nat, s: State, open: set<Path>)
    requires sol in files && i < |files[sol]| && Pulls(files, sol, i, s)
    requires Ordered(files, root, s, open) && sol in s.processed
    requires forall q :: q in open ==> Reaches(files, q, sol)
    ensures var t := files[sol][i].target;
      && Ordered(files, root, Enter(s, t), open + {t})
      && Passed(files, Enter(s, t), open + {t}, t, 0)
      && forall q :: q in open + {t} ==> Reaches(files, q, t)
  {
    var t := files[sol][i].target;
    ReachesNext(files, root, sol, i, t);
    ReachesSelf(files, t);
    forall q | q in open
      ensures Reaches(files, q, t)
    {
      ReachesNext(files, q, sol, i, t);
    }
    EnterOrdered(files, root, s, open, t);
  }

  lemma OrderedIsTidy(files: Files, root: Path, s: State, open: set<Path>, t: Path)
    requires Ordered(files, root, s, open) && t.base !in s.seen
    ensures Tidy(s) && Tidy(Enter(s, t))
  {
    EnterTidy(s, t);
  }

  /** After the call for the file that line i pulls in. */
  lemma PassedPull(files: Files, s: State, s1: State, open: set<Path>, sol: Path, i: nat)
    requires sol in files && i < |files[sol]| && Pulls(files, sol, i, s)
    requires Passed(files, s, open, sol, i) && Tidy(s) && open <= s.processed
    requires Enter(s, files[sol][i].target).processed <= s1.processed
    ensures Passed(files, s1, open, sol, i) && Complete(s1, open, files[sol][i].target)
  {
  }

  lemma NewIsNotRoot(files: Files, root: Path, s: State, open: set<Path>, t: Path)
    requires Ordered(files, root, s, open) && t.base !in s.seen && root in s.processed
    ensures t != root && Of(s.output, t) == []
  {
    NewToTidy(s, t);
  }

  lemma PulledIsWhole(files: Files, root: Path, t: Path, level: nat, s: State, open: set<Path>)
    requires Ordered(files, root, s, open) && t.base !in s.seen && root in s.processed && t in files
    requires Lines(files, t, 0, level + 1, Enter(s, t)).Flattened?
    ensures Of(Lines(files, t, 0, level + 1, Enter(s, t)).state.output, t) == Kept(files[t], t == root)
  {
    hide Ordered, Tidy, Lines, Selected, Of;
    NewIsNotRoot(files, root, s, open, t);
    OrderedIsTidy(files, root, s, open, t);
    LinesAdd(Output, files, t, 0, level + 1, Enter(s, t));
  }

  lemma {:induction false} LinesOrdered(
      files: Files, root: Path, sol: Path, i: nat, level: nat, s: State, open: set<Path>)
    requires NamesTellApart(files, root) && Acyclic(files, root)
    requires sol in files && i <= |files[sol]| && Lines(files, sol, i, level, s).Flattened?
    requires Ordered(files, root, s, open) && Passed(files, s, open, sol, i)
    requires root in open && sol in open && open <= s.processed
    requires forall q :: q in open ==> Reaches(files, q, sol)
    ensures var s' := Lines(files, sol, i, level, s).state;
      Ordered(files, root, s', open) && Passed(files, s', open, sol, |files[sol]|)
    decreases Left(files, s.seen), |files[sol]| - i
  {
    hide Left, Process, Pull, Pass, Lines, OneLine, Ordered, Passed, NamesTellApart, Acyclic, Reaches, Tidy, Complete;
    Unroll(files, sol, i, level, s);
    if i < |files[sol]| {
      var s1 := Pull(files, sol, i, level, s).state;
      if files[sol][i].Import? {
        var t := files[sol][i].target;
        assert Imports(files, sol, i, t);
        hide Imports;
        if Pulls(files, sol, i, s) {
          PullOrdered(files, root, sol, i, s, open);
          EnterLeavesLess(files, s, t);
          OrderedIsTidy(files, root, s, open, t);
          LinesTidy(files, t, 0, level + 1, Enter(s, t));
          LinesOrdered(files, root, t, 0, level + 1, Enter(s, t), open + {t});
          PulledIsWhole(files, root, t, level, s, open);
          LeaveOrdered(files, root, s1, open, t);
          PassedPull(files, s, s1, open, sol, i);
        } else {
          SeenIsComplete(files, root, s, open, sol, i, t);
        }
      }
      PassOrdered(files, root, sol, i, level, s1, open);
      PassKeeps(files, sol, i, level, s1);
      LessLeft(files, s.seen, s1.seen);
      LinesOrdered(files, root, sol, i + 1, level, Pass(files, sol, i, level, s1), open);
    }
  }

  lemma {:induction false} OfPrefix(output: seq<Place>, b: nat, p: Path)
    requires b <= |output| && forall a :: b <= a < |output| ==> output[a].file != p
    ensures Of(output[..b], p) == Of(output, p)
  {
    if b < |output| {
      OfPrefix(output[..|output| - 1], b, p);
      assert output[..|output| - 1][..b] == output[..b];
    } else {
      assert output[..b] == output;
    }
  }

  lemma RunOrdered(files: Files, root: Path)
    requires Process(files, root, 0, START).Flattened?
    requires NamesTellApart(files, root) && Acyclic(files, root)
    ensures Ordered(files, root, Process(files, root, 0, START).state, {root})
  {
    ReachesSelf(files, root);
    EnterTidy(START, root);
    LinesOrdered(files, root, root, 0, 0, Enter(START, root), {root});
  }

  /** In an acyclic graph everything from an imported file, and from every file
      that one reaches, is already printed when the import line is passed; and
      every import line of every processed file is passed. */
  lemma ImportsComeFirst(files: Files, root: Path)
    requires Process(files, root, 0, START).Flattened?
    requires NamesTellApart(files, root) && Acyclic(files, root)
    ensures var s := Process(files, root, 0, START).state;
      && |s.marks| == |s.passed|
      && (forall n :: 0 <= n < |s.passed| ==>
            s.marks[n] <= |s.output| && AlreadyOut(files, root, s.output[..s.marks[n]], s.passed[n]))
      && (forall p :: Of(s.passed, p) == if p in s.processed && p in files then ImportsOf(files[p]) else [])
  {
    RunOrdered(files, root);
    PassesImports(files, root);
  }

  /** In particular it all comes before the lines that follow the import line in
      its own file. */
  lemma LaterLinesComeAfter(files: Files, root: Path, b: nat, k: nat, t: Path, u: Path)
    requires Process(files, root, 0, START).Flattened?
    requires NamesTellApart(files, root) && Acyclic(files, root)
    requires var output := Process(files, root, 0, START).state.output;
      b < |output| && k < output[b].line && Imports(files, output[b].file, k, t) && Reaches(files, t, u)
    ensures u in files
    ensures Of(Process(files, root, 0, START).state.output[..b], u) == Kept(files[u], u == root)
  {
    var s := Process(files, root, 0, START).state;
    RunOrdered(files, root);
    assert Passed(files, s, {root}, s.output[b].file, s.output[b].line);
    var n: nat :| Steps(files, t, u, n);
    CompleteReaches(files, s, {root}, t, u, n);
    OfPrefix(s.output, b, u);
  }

  // What the two conditions are for.

  /** Of two imported files of the same name the second is lost. */
  lemma SameNameIsLost(root: Path, a: Path, b: Path)
    requires a != b && a.base == b.base != root.base
    ensures var files: Files := map[root := [Import(a), Import(b)], a := [Other("a")], b := [Other("b")]];
      && Reaches(files, root, b)
      && Process(files, root, 0, START).Flattened?
      && Process(files, root, 0, START).state.processed == {root, a}
      && Process(files, root, 0, START).state.output == [Place(a, 0)]
  {
    var files: Files := map[root := [Import(a), Import(b)], a := [Other("a")], b := [Other("b")]];
    ReachesSelf(files, root);
    ReachesNext(files, root, root, 1, b);
    var s := Enter(START, root);
    assert Process(files, root, 0, START) == Lines(files, root, 0, 0, s);
    var s1 := Emit(Enter(s, a), Place(a, 0));
    hide Lines, OneLine, Pull, Process, Left;
    Unroll(files, root, 0, 0, s);
    Unroll(files, a, 0, 1, Enter(s, a));
    Unroll(files, a, 1, 1, s1);
    var s2 := Pass(files, root, 0, 0, s1);
    Unroll(files, root, 1, 0, s2);
    Unroll(files, root, 2, 0, Pass(files, root, 1, 0, s2));
  }

  /** In a cycle an import line is passed while the imported file's own lines
      are still to come. */
  lemma CycleIsNotOnTime(root: Path, a: Path)
    requires a.base != root.base
    ensures var files: Files := map[root := [Import(a), Other("root")], a := [Import(root), Other("a")]];
      && Process(files, root, 0, START).Flattened?
      && var s := Process(files, root, 0, START).state;
      && s.output == [Place(a, 1), Place(root, 1)]
      && s.passed == [Place(a, 0), Place(root, 0)] && s.marks == [0, 1]
      && Imports(files, a, 0, root) && !AlreadyOut(files, root, [], Place(a, 0))
  {
    var files: Files := map[root := [Import(a), Other("root")], a := [Import(root), Other("a")]];
    var s := Enter(START, root);
    assert Process(files, root, 0, START) == Lines(files, root, 0, 0, s);
    ReachesSelf(files, root);
    assert Imports(files, a, 0, root) && Selected(Output, files[root], true, 1) == [1];
    hide Lines, OneLine, Pull, Process, Left;
    Unroll(files, root, 0, 0, s);
    var s1 := Pass(files, a, 0, 1, Enter(s, a));
    Unroll(files, a, 0, 1, Enter(s, a));
    var s2 := Emit(s1, Place(a, 1));
    Unroll(files, a, 1, 1, s1);
    Unroll(files, a, 2, 1, s2);
    var s3 := Pass(files, root, 0, 0, s2);
    Unroll(files, root, 1, 0, s3);
    Unroll(files, root, 2, 0, Emit(s3, Place(root, 1)));
  }

  // The program itself, with its global table and output.

  datatype Ending = Completed | Died(path: Path)

  function TextOf(files: Files, place: Place): string {
    if place.file in files && place.line < |files[place.file]| && !files[place.file][place.line].Import?
    then files[place.file][place.line].text
    else ""
  }

  function Text(files: Files, places: seq<Place>): seq<string> {
    seq(|places|, i requires 0 <= i < |places| => TextOf(files, places[i]))
  }

  lemma TextEmit(files: Files, s: State, place: Place)
    ensures Text(files, Emit(s, place).output) == Text(files, s.output) + [TextOf(files, place)]
  {
  }

  /** The text that is printed is the text of those lines, one by one. */
  lemma PrintsTheText(files: Files, root: Path, j: nat)
    requires Process(files, root, 0, START).Flattened?
    requires j < |Process(files, root, 0, START).state.output|
    ensures var s := Process(files, root, 0, START).state;
      var place := s.output[j];
      && |Text(files, s.output)| == |s.output|
      && place.file in files && place.line < |files[place.file]|
      && match files[place.file][place.line]
         case Import(_) => false
         case Pragma(text) => place.file == root && Text(files, s.output)[j] == text
         case Other(text) => Text(files, s.output)[j] == text
  {
    PrintsEachOnce(files, root);
    hide Process, FileInOrder;
    var s := Process(files, root, 0, START).state;
    var place := s.output[j];
    assert Place(place.file, place.line) in s.output;
  }

  class Flattening {
    const files: Files
    var seen: set<string>
    var output: seq<string>
    ghost var state: State

    ghost predicate Valid()
      reads this
    {
      seen == state.seen && output == Text(files, state.output)
    }

    constructor (files: Files)
      ensures this.files == files && state == START && Valid()
    {
      this.files, seen, output, state := files, {}, [], START;
    }

    method ProcessSol(sol: Path, level: nat) returns (ending: Ending)
      requires Valid() && sol.base !in seen
      modifies this
      ensures match Process(files, sol, level, old(state))
              case Flattened(s') => ending == Completed && Valid() && state == s'
              case Unreadable(p) => ending == Died(p)
      decreases Left(files, seen)
    {
      hide Left, Pull, Lines, OneLine, Text;
      seen := seen + {sol.base};
      state := Enter(state, sol);
      if sol !in files {
        return Died(sol);
      }
      EnterLeavesLess(files, old(state), sol);
      var lines := files[sol];
      ghost var entered := seen;
      ghost var r := Lines(files, sol, 0, level, state);
      assert Process(files, sol, level, old(state)) == r;
      var i := 0;
      hide Process;
      while i < |lines|
        invariant i <= |lines| && Valid() && entered <= seen
        invariant Lines(files, sol, i, level, state) == r
      {
        Unroll(files, sol, i, level, state);
        var line := lines[i];
        if line.Import? {
          if line.target.base !in seen {
            LessLeft(files, entered, seen);
            var inner := ProcessSol(line.target, level + 1);
            if inner.Died? {
              return inner;
            }
          }
        } else if level == 0 || !line.Pragma? {
          TextEmit(files, state, Place(sol, i));
          output := output + [line.text];
        }
        state := Pass(files, sol, i, level, state);
        i := i + 1;
      }
      Unroll(files, sol, i, level, state);
      return Completed;
    }
  }
}
