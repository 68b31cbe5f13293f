/**
  The inspector's command table: splitting a request path, dispatching to a registered callback, and the
  index page.
 */
module Inspectors {

  import opened Options

  // ---------------------------------------------------------------- splitting a path

  /** `string::find('/', start)`, with the length of the string for `npos`. */
  function FindSlash(s: string, start: nat): (pos: nat)
    requires start <= |s|
    ensures start <= pos <= |s| && (pos < |s| ==> s[pos] == '/')
    ensures forall k :: start <= k < pos ==> s[k] != '/'
    decreases |s| - start
  {
    if start == |s| || s[start] == '/' then start else FindSlash(s, start + 1)
  }

  /** What `split` adds from `start` on. */
  function Pieces(s: string, start: nat): seq<string>
    requires start <= |s|
    decreases |s| - start
  {
    var pos := FindSlash(s, start);
    if pos == |s| then if start < |s| then [s[start..]] else []
    else if pos > start then [s[start..pos]] + Pieces(s, pos + 1)
    else Pieces(s, pos + 1)
  }

  lemma {:induction false} PiecesStep(s: string, start: nat)
    requires start <= |s|
    ensures var pos := FindSlash(s, start);
            && (pos == |s| ==> Pieces(s, start) == if start < |s| then [s[start..]] else [])
            && (pos < |s| ==>
                  Pieces(s, start) == if pos > start then [s[start..pos]] + Pieces(s, pos + 1) else Pieces(s, pos + 1))
  {
  }

  lemma Shift(a: seq<string>, x: string, b: seq<string>)
    ensures a + ([x] + b) == (a + [x]) + b
  {
  }

  /** `split`. */
  method Split(str: string) returns (result: seq<string>)
    ensures result == Pieces(str, 0)
  {
    hide Pieces, FindSlash;
    result := [];
    var start := 0;
    var pos := FindSlash(str, 0);
    assert [] + Pieces(str, 0) == Pieces(str, 0);
    while pos != |str|
      invariant start <= pos <= |str| && pos == FindSlash(str, start)
      invariant result + Pieces(str, start) == Pieces(str, 0)
      decreases |str| - start
    {
      PiecesStep(str, start);
      if pos > start {
        Shift(result, str[start..pos], Pieces(str, pos + 1));
        result := result + [str[start..pos]];
      }
      start := pos + 1;
      pos := FindSlash(str, start);
    }
    PiecesStep(str, start);
    if start < |str| {
      result := result + [str[start..]];
    }
  }

  /** A place in `s` that is non-empty, without a slash, and cannot be made longer at either end. */
  predicate IsPiece(s: string, a: nat, b: nat) {
    && a < b <= |s|
    && (forall k :: a <= k < b ==> s[k] != '/')
    && (a == 0 || s[a - 1] == '/')
    && (b == |s| || s[b] == '/')
  }

  ghost predicate Ascending(at: seq<(nat, nat)>) {
    forall i, j :: 0 <= i < j < |at| ==> at[i].1 < at[j].0
  }

  /** `at` lists all such places from `start` on, from left to right. */
  ghost predicate ListsPieces(s: string, start: nat, at: seq<(nat, nat)>) {
    && (forall i :: 0 <= i < |at| ==> start <= at[i].0 && IsPiece(s, at[i].0, at[i].1))
    && Ascending(at)
    && (forall a: nat, b: nat :: start <= a && IsPiece(s, a, b) ==> (a, b) in at)
  }

  ghost predicate IsCut(s: string, at: seq<(nat, nat)>, ps: seq<string>) {
    |ps| == |at| && forall i :: 0 <= i < |at| ==> at[i].0 <= at[i].1 <= |s| && ps[i] == s[at[i].0..at[i].1]
  }

  lemma {:induction false} Places(s: string, start: nat) returns (at: seq<(nat, nat)>)
    requires start <= |s| && (start == 0 || s[start - 1] == '/')
    ensures ListsPieces(s, start, at) && IsCut(s, at, Pieces(s, start))
    decreases |s| - start
  {
    hide Pieces, FindSlash, ListsPieces, IsCut;
    var pos := FindSlash(s, start);
    PiecesStep(s, start);
    if pos < |s| {
      var more := Places(s, pos + 1);
      at := if pos > start then [(start, pos)] + more else more;
      MorePlaces(s, start, pos, more);
      MoreCut(s, start, pos, more, Pieces(s, pos + 1));
    } else {
      at := if pos > start then [(start, pos)] else [];
      LastPlace(s, start);
    }
  }

  lemma MorePlaces(s: string, start: nat, pos: nat, more: seq<(nat, nat)>)
    requires start <= pos < |s| && s[pos] == '/' && (start == 0 || s[start - 1] == '/')
    requires forall k :: start <= k < pos ==> s[k] != '/'
    requires ListsPieces(s, pos + 1, more)
    ensures ListsPieces(s, start, if pos > start then [(start, pos)] + more else more)
  {
    hide IsPiece, Ascending;
    var at := if pos > start then [(start, pos)] + more else more;
    forall i | 0 <= i < |at|
      ensures start <= at[i].0 && IsPiece(s, at[i].0, at[i].1)
    {
      if pos > start && i == 0 {
        WholePiece(s, start, pos);
      } else {
        assert at[i] == more[i - (|at| - |more|)];
      }
    }
    if pos > start { StillAscending((start, pos), more); }
    forall a: nat, b: nat | start <= a && IsPiece(s, a, b)
      ensures (a, b) in at
    {
      if a > pos {
        assert (a, b) in more;
      } else {
        OnlyHere(s, start, pos, a, b);
        assert at[0] == (a, b);
      }
    }
  }

  lemma WholePiece(s: string, start: nat, pos: nat)
    requires start < pos < |s| && s[pos] == '/' && (start == 0 || s[start - 1] == '/')
    requires forall k :: start <= k < pos ==> s[k] != '/'
    ensures IsPiece(s, start, pos)
  {
  }

  lemma StillAscending(first: (nat, nat), more: seq<(nat, nat)>)
    requires Ascending(more) && forall i :: 0 <= i < |more| ==> first.1 < more[i].0
    ensures Ascending([first] + more)
  {
  }

  lemma MoreCut(s: string, start: nat, pos: nat, more: seq<(nat, nat)>, ps: seq<string>)
    requires start <= pos < |s| && IsCut(s, more, ps)
    ensures IsCut(s, [(start, pos)] + more, [s[start..pos]] + ps)
  {
  }

  lemma LastPlace(s: string, start: nat)
    requires start <= |s| && (start == 0 || s[start - 1] == '/') && forall k :: start <= k < |s| ==> s[k] != '/'
    ensures ListsPieces(s, start, if start < |s| then [(start, |s|)] else [])
    ensures IsCut(s, if start < |s| then [(start, |s|)] else [], if start < |s| then [s[start..]] else [])
  {
    forall a: nat, b: nat | start <= a && IsPiece(s, a, b)
      ensures start < |s| && (a, b) == (start, |s|)
    {
      OnlyHere(s, start, |s|, a, b);
    }
  }

  /** Between `start` and the next slash there is at most one place. */
  lemma OnlyHere(s: string, start: nat, pos: nat, a: nat, b: nat)
    requires start <= a <= pos <= |s| && (pos == |s| || s[pos] == '/') && forall k :: start <= k < pos ==> s[k] != '/'
    requires IsPiece(s, a, b)
    ensures a == start && b == pos && pos > start
  {
  }

  /** `split` returns exactly the maximal slash-free pieces of the path, in order. */
  lemma SplitIsExact(s: string)
    ensures exists at :: ListsPieces(s, 0, at) && IsCut(s, at, Pieces(s, 0))
  {
    var at := Places(s, 0);
  }

  predicate IsName(s: string) {
    s != "" && '/' !in s
  }

  /** A path as the index page writes it. */
  function Path(names: seq<string>): string {
    if names == [] then "" else Path(names[..|names| - 1]) + "/" + names[|names| - 1]
  }

  lemma {:induction false} PiecesAreNames(s: string, start: nat)
    requires start <= |s|
    ensures forall p <- Pieces(s, start) :: IsName(p)
    decreases |s| - start
  {
    hide Pieces, FindSlash;
    PiecesStep(s, start);
    var pos := FindSlash(s, start);
    if pos < |s| { PiecesAreNames(s, pos + 1); }
  }

  lemma {:induction false} SplitLonger(p: string, name: string, start: nat)
    requires start <= |p| && IsName(name)
    ensures Pieces(p + "/" + name, start) == Pieces(p, start) + [name]
    decreases |p| - start
  {
    hide Pieces, FindSlash, IsName;
    var s := p + "/" + name;
    var pos := FindSlash(p, start);
    FirstSlash(s, start, pos);
    PiecesStep(p, start);
    PiecesStep(s, start);
    assert s[start..pos] == p[start..pos];
    if pos < |p| {
      SplitLonger(p, name, pos + 1);
      assert [p[start..pos]] + (Pieces(p, pos + 1) + [name]) == ([p[start..pos]] + Pieces(p, pos + 1)) + [name];
    } else {
      assert s[pos + 1..] == name && p[start..pos] == p[start..] && [] + [name] == [name];
      LastPiece(s, pos + 1);
    }
  }

  lemma FirstSlash(s: string, start: nat, pos: nat)
    requires start <= pos < |s| && s[pos] == '/' && forall k :: start <= k < pos ==> s[k] != '/'
    ensures FindSlash(s, start) == pos
  {
  }

  lemma LastPiece(s: string, start: nat)
    requires start <= |s| && IsName(s[start..])
    ensures Pieces(s, start) == [s[start..]]
  {
    hide Pieces, FindSlash;
    PiecesStep(s, start);
    forall k | start <= k < |s|
      ensures s[k] != '/'
    {
      assert s[k] == s[start..][k - start];
    }
  }

  lemma {:induction false} LongerPath(names: seq<string>)
    requires names != []
    ensures var n := |names| - 1; Path(names) == Path(names[..n]) + "/" + names[n] && names == names[..n] + [names[n]]
  {
  }

  lemma {:induction false} SplitOfPath(names: seq<string>)
    requires forall name <- names :: IsName(name)
    ensures Pieces(Path(names), 0) == names
  {
    hide Pieces, Path, IsName;
    if names == [] {
      NothingToSplit();
    } else {
      var n := |names| - 1;
      LongerPath(names);
      SplitOfPath(names[..n]);
      SplitLonger(Path(names[..n]), names[n], 0);
    }
  }

  lemma NothingToSplit()
    ensures Path([]) == "" && Pieces("", 0) == []
  {
  }

  /** Splitting a path gives back what it was made of exactly if that is names. */
  lemma SplitInvertsPathExactly(names: seq<string>)
    ensures Pieces(Path(names), 0) == names <==> forall name <- names :: IsName(name)
  {
    hide Pieces, Path, IsName;
    PiecesAreNames(Path(names), 0);
    if forall name <- names :: IsName(name) {
      SplitOfPath(names);
    }
  }

  // ---------------------------------------------------------------- dispatch

  /** A `boost::function`, which may be empty. */
  datatype Callback = Empty | Callback(id: nat)

  datatype Entry = Entry(callback: Callback, help: string)

  datatype Response = Index | Called(callback: Callback, args: seq<string>) | NotFound

  datatype Addition = Addition(mod: string, command: string, callback: Callback, help: string)

  type Table<T> = map<string, map<string, T>>

  function Lookup<T>(table: Table<T>, mod: string, command: string): Option<T> {
    if mod in table && command in table[mod] then Some(table[mod][command]) else None
  }

  function Put<T>(table: Table<T>, mod: string, command: string, x: T): Table<T> {
    table[mod := (if mod in table then table[mod] else map[])[command := x]]
  }

  lemma PutThenLookup<T>(table: Table<T>, mod: string, command: string, x: T, m: string, c: string)
    ensures Lookup(Put(table, mod, command, x), m, c) == if m == mod && c == command then Some(x) else Lookup(table, m, c)
  {
  }

  /** What `onRequest` does with a path. */
  function Dispatch(commands: Table<Callback>, path: string): Response {
    if path == "/" then Index
    else
      var result := Pieces(path, 0);
      if |result| < 2 then NotFound
      else
        match Lookup(commands, result[0], result[1])
        case None => NotFound
        case Some(callback) => if callback == Empty then NotFound else Called(callback, result[2..])
  }

  /** The last registration of a command. */
  function LastAdd(adds: seq<Addition>, mod: string, command: string): Option<Addition> {
    if adds == [] then None
    else
      var last := adds[|adds| - 1];
      if last.mod == mod && last.command == command then Some(last)
      else LastAdd(adds[..|adds| - 1], mod, command)
  }

  function After(adds: seq<Addition>): (Table<Callback>, Table<string>) {
    if adds == [] then (map[], map[])
    else
      var last := adds[|adds| - 1];
      var t := After(adds[..|adds| - 1]);
      (Put(t.0, last.mod, last.command, last.callback), Put(t.1, last.mod, last.command, last.help))
  }

  /** Both tables hold exactly the commands registered, with what was registered last. */
  lemma {:induction false} TablesHoldLastAdds(adds: seq<Addition>, m: string, c: string)
    ensures var last := LastAdd(adds, m, c);
            && Lookup(After(adds).0, m, c) == (if last.None? then None else Some(last.value.callback))
            && Lookup(After(adds).1, m, c) == (if last.None? then None else Some(last.value.help))
  {
    if adds != [] {
      var last := adds[|adds| - 1];
      var t := After(adds[..|adds| - 1]);
      TablesHoldLastAdds(adds[..|adds| - 1], m, c);
      PutThenLookup(t.0, last.mod, last.command, last.callback, m, c);
      PutThenLookup(t.1, last.mod, last.command, last.help, m, c);
    }
  }

  /**
    After any registrations: if a listed module and command are names, the path that the index page
    lists for them is dispatched to the callback registered last, with no arguments, unless that is
    empty.
   */
  lemma ListedPathIsDispatched(adds: seq<Addition>, m: string, c: string)
    requires Lookup(After(adds).1, m, c).Some? && IsName(m) && IsName(c)
    ensures LastAdd(adds, m, c).Some?
    ensures var callback := LastAdd(adds, m, c).value.callback;
            Dispatch(After(adds).0, "/" + m + "/" + c) == if callback == Empty then NotFound else Called(callback, [])
  {
    TablesHoldLastAdds(adds, m, c);
    SplitOfPath([m, c]);
    PathOfTwo(m, c);
  }

  lemma PathOfTwo(m: string, c: string)
    ensures Path([m, c]) == "/" + m + "/" + c && |Path([m, c])| > 1
  {
    LongerPath([m, c]);
    LongerPath([m]);
    assert [m, c][..1] == [m] && [m][..0] == [];
    assert "" + "/" + m == "/" + m;
  }

  /**
    After any registrations, what a path of names is dispatched to: the callback registered last for its
    first two names, with the others as arguments, if there is one.
   */
  lemma PathIsDispatched(adds: seq<Addition>, names: seq<string>)
    requires forall name <- names :: IsName(name)
    ensures Dispatch(After(adds).0, "/") == Index
    ensures Dispatch(After(adds).0, Path(names))
            == if |names| < 2 || LastAdd(adds, names[0], names[1]).None? || LastAdd(adds, names[0], names[1]).value.callback == Empty
               then NotFound
               else Called(LastAdd(adds, names[0], names[1]).value.callback, names[2..])
  {
    hide Path, LastAdd;
    SplitOfPath(names);
    PathIsNotRoot(names);
    if |names| >= 2 { TablesHoldLastAdds(adds, names[0], names[1]); }
  }

  lemma PathIsNotRoot(names: seq<string>)
    requires forall name <- names :: IsName(name)
    ensures Path(names) != "/"
  {
    if names != [] {
      var n := |names| - 1;
      LongerPath(names);
      assert names[n] in names;
      assert |Path(names)| >= 2;
    }
  }

  /** The path listed for a module or command that is not a name is read as something else. */
  lemma ListedPathIsReadBackExactly(m: string, c: string)
    ensures Pieces("/" + m + "/" + c, 0) == [m, c] <==> IsName(m) && IsName(c)
  {
    SplitInvertsPathExactly([m, c]);
    PathOfTwo(m, c);
    assert [m, c][0] == m && [m, c][1] == c;
  }

  // ---------------------------------------------------------------- the code

  datatype Line = Line(mod: string, command: string, help: string)

  class Inspector {
    var commands: Table<Callback>
    var helps: Table<string>
    ghost var adds: seq<Addition>

    ghost predicate Valid()
      reads this
    {
      (commands, helps) == After(adds)
    }

    constructor ()
      ensures Valid() && adds == []
    {
      commands, helps, adds := map[], map[], [];
    }

    method Add(mod: string, command: string, callback: Callback, help: string)
      requires Valid()
      modifies this
      ensures Valid() && adds == old(adds) + [Addition(mod, command, callback, help)]
    {
      commands := commands[mod := (if mod in commands then commands[mod] else map[])[command := callback]];
      helps := helps[mod := (if mod in helps then helps[mod] else map[])[command := help]];
      adds := adds + [Addition(mod, command, callback, help)];
      assert adds[..|adds| - 1] == old(adds);
    }

    method OnRequest(path: string) returns (resp: Response)
      requires Valid()
      ensures resp == Dispatch(After(adds).0, path)
    {
      if path == "/" {
        return Index;
      }
      var result := Split(path);
      resp := NotFound;
      if |result| == 0 {
      } else if |result| == 1 {
      } else {
        var mod := result[0];
        if mod in commands {
          var command := result[1];
          var commList := commands[mod];
          if command in commList {
            var args := result[2..];
            if commList[command] != Empty {
              resp := Called(commList[command], args);
            }
          }
        }
      }
    }

    /** The lines of the index page: one for each registered command, with its last help. */
    method IndexPage() returns (lines: seq<Line>)
      requires Valid()
      ensures forall m, c, h :: Line(m, c, h) in lines <==> LastAdd(adds, m, c).Some? && LastAdd(adds, m, c).value.help == h
      ensures forall i, j :: 0 <= i < j < |lines| ==> lines[i] != lines[j]
    {
      lines := [];
      var mods := helps.Keys;
      while mods != {}
        invariant mods <= helps.Keys
        invariant forall l <- lines :: l.mod !in mods
        invariant forall m, c, h :: Line(m, c, h) in lines <==> m !in mods && Lookup(helps, m, c) == Some(h)
        invariant forall i, j :: 0 <= i < j < |lines| ==> lines[i] != lines[j]
        decreases mods
      {
        var mod :| mod in mods;
        var more := ModuleLines(mod, helps[mod]);
        forall i, j | 0 <= i < |lines| && 0 <= j < |more|
          ensures lines[i] != more[j]
        {
          assert lines[i] in lines && more[j] in more;
        }
        lines := lines + more;
        mods := mods - {mod};
      }
      forall m, c { TablesHoldLastAdds(adds, m, c); }
    }
  }

  method ModuleLines(mod: string, list: map<string, string>) returns (lines: seq<Line>)
    ensures forall m, c, h :: Line(m, c, h) in lines <==> m == mod && c in list && list[c] == h
    ensures forall i, j :: 0 <= i < j < |lines| ==> lines[i] != lines[j]
  {
    lines := [];
    var commands := list.Keys;
    while commands != {}
      invariant commands <= list.Keys
      invariant forall m, c, h :: Line(m, c, h) in lines <==> m == mod && c in list && c !in commands && list[c] == h
      invariant forall i, j :: 0 <= i < j < |lines| ==> lines[i] != lines[j]
      decreases commands
    {
      var command :| command in commands;
      assert Line(mod, command, list[command]) !in lines;
      lines := lines + [Line(mod, command, list[command])];
      commands := commands - {command};
    }
  }
}
