/**
  Finding a playbook file (internal/app/playbook.go), over the lexical rules of
  filepath.Clean on a system whose separator is '/'.
 */
module PlaybookPath {
  import opened Text
  import opened Outcomes

  // ---------------------------------------------------------------- splitting and joining

  /** The elements between slashes; one more than there are slashes. */
  function Split(path: string): (r: seq<string>)
    ensures |r| > 0
    ensures forall e :: e in r ==> '/' !in e
    decreases |path|
  {
    var i := Index(path, "/");
    if i == -1 then NoSlash(path); [path]
    else FirstSlash(path, i); [path[..i]] + Split(path[i + 1..])
  }

  lemma NoSlash(path: string)
    requires Index(path, "/") == -1
    ensures '/' !in path
  {
    forall j | 0 <= j < |path|
      ensures path[j] != '/'
    {
      assert !At(path, "/", j);
    }
  }

  lemma FirstSlash(path: string, i: int)
    requires Index(path, "/") == i && i != -1
    ensures 0 <= i < |path| && path[i] == '/' && '/' !in path[..i] && path == path[..i] + "/" + path[i + 1..]
  {
    forall j | 0 <= j < i
      ensures path[j] != '/'
    {
      assert !At(path, "/", j);
    }
  }

  function Join(elements: seq<string>): string
    requires elements != []
  {
    if |elements| == 1 then elements[0] else elements[0] + "/" + Join(elements[1..])
  }

  lemma SplitStep(first: string, rest: string)
    requires '/' !in first
    ensures Split(first) == [first]
    ensures Split(first + "/" + rest) == [first] + Split(rest)
  {
    var path := first + "/" + rest;
    AtMiddle(first, "/", rest);
    forall j | 0 <= j < |first|
      ensures !At(path, "/", j) && !At(first, "/", j)
    {
      assert path[j] == first[j];
    }
    IndexIs(path, "/", |first|);
    assert path[..|first|] == first && path[|first| + 1..] == rest;
    assert Index(first, "/") == -1;
  }

  /** Elements without slashes survive joining and splitting. */
  lemma {:induction false} SplitJoin(elements: seq<string>)
    requires elements != [] && forall e :: e in elements ==> '/' !in e
    ensures Split(Join(elements)) == elements
  {
    hide At, Index, Split;
    SplitStep(elements[0], if |elements| == 1 then "" else Join(elements[1..]));
    if |elements| > 1 {
      SplitJoin(elements[1..]);
    }
  }

  lemma {:induction false} JoinMore(elements: seq<string>, last: string)
    requires elements != []
    ensures Join(elements + [last]) == Join(elements) + "/" + last
  {
    if |elements| > 1 {
      assert (elements + [last])[1..] == elements[1..] + [last];
      JoinMore(elements[1..], last);
      assert elements[0] + "/" + (Join(elements[1..]) + "/" + last) == Join(elements) + "/" + last;
    } else {
      assert (elements + [last])[1..] == [last];
    }
  }

  // ---------------------------------------------------------------- filepath.Clean

  /** One element on top of those kept so far. */
  function Push(rooted: bool, kept: seq<string>, e: string): seq<string> {
    if e == "" || e == "." then kept
    else if e != ".." then kept + [e]
    else if kept != [] && kept[|kept| - 1] != ".." then kept[..|kept| - 1]
    else if rooted then kept
    else kept + [e]
  }

  function Reduce(rooted: bool, kept: seq<string>, elements: seq<string>): seq<string>
    decreases |elements|
  {
    if elements == [] then kept else Reduce(rooted, Push(rooted, kept, elements[0]), elements[1..])
  }

  function Rooted(path: string): bool {
    path != "" && path[0] == '/'
  }

  function Elements(path: string): seq<string> {
    Reduce(Rooted(path), [], Split(path))
  }

  function Show(rooted: bool, kept: seq<string>): string {
    if kept == [] then (if rooted then "/" else ".")
    else if rooted then "/" + Join(kept) else Join(kept)
  }

  function Clean(path: string): string {
    Show(Rooted(path), Elements(path))
  }

  /** Nothing left to clean: no empty or "." element, ".." only in front of a relative path. */
  predicate Tidy(rooted: bool, kept: seq<string>) {
    forall i :: 0 <= i < |kept| ==> TidyAt(rooted, kept, i)
  }

  predicate TidyAt(rooted: bool, kept: seq<string>, i: nat)
    requires i < |kept|
  {
    && kept[i] != "" && kept[i] != "." && '/' !in kept[i]
    && (kept[i] == ".." ==> !rooted && (i == 0 || kept[i - 1] == ".."))
  }

  lemma PushKeepsTidy(rooted: bool, kept: seq<string>, e: string)
    requires Tidy(rooted, kept) && '/' !in e
    ensures Tidy(rooted, Push(rooted, kept, e))
  {
    var after := Push(rooted, kept, e);
    forall i | 0 <= i < |after|
      ensures TidyAt(rooted, after, i)
    {
      assert i < |kept| ==> TidyAt(rooted, kept, i);
    }
  }

  lemma {:induction false} ReduceTidy(rooted: bool, kept: seq<string>, elements: seq<string>)
    requires Tidy(rooted, kept) && forall e :: e in elements ==> '/' !in e
    ensures Tidy(rooted, Reduce(rooted, kept, elements))
    decreases |elements|
  {
    hide Tidy, Push;
    if elements != [] {
      PushKeepsTidy(rooted, kept, elements[0]);
      ReduceTidy(rooted, Push(rooted, kept, elements[0]), elements[1..]);
    }
  }

  lemma {:induction false} ReduceMore(rooted: bool, kept: seq<string>, a: seq<string>, b: seq<string>)
    ensures Reduce(rooted, kept, a + b) == Reduce(rooted, Reduce(rooted, kept, a), b)
    decreases |a|
  {
    if a == [] {
      assert a + b == b;
    } else {
      assert (a + b)[1..] == a[1..] + b;
      ReduceMore(rooted, Push(rooted, kept, a[0]), a[1..], b);
    }
  }

  /** Tidy elements are kept as they are. */
  lemma {:induction false} ReduceKeeps(rooted: bool, tidy: seq<string>)
    requires Tidy(rooted, tidy)
    ensures Reduce(rooted, [], tidy) == tidy
    decreases |tidy|
  {
    if tidy != [] {
      var n := |tidy| - 1;
      assert tidy == tidy[..n] + [tidy[n]];
      TidyPrefix(rooted, tidy, n);
      ReduceKeeps(rooted, tidy[..n]);
      ReduceMore(rooted, [], tidy[..n], [tidy[n]]);
      assert [tidy[n]][1..] == [];
      assert TidyAt(rooted, tidy, n);
    }
  }

  lemma TidyPrefix(rooted: bool, kept: seq<string>, n: nat)
    requires Tidy(rooted, kept) && n <= |kept|
    ensures Tidy(rooted, kept[..n])
  {
    forall i | 0 <= i < n
      ensures TidyAt(rooted, kept[..n], i)
    {
      assert TidyAt(rooted, kept, i);
    }
  }

  lemma TidyElements(rooted: bool, kept: seq<string>)
    requires Tidy(rooted, kept)
    ensures forall e :: e in kept ==> e != "" && '/' !in e
  {
    forall i | 0 <= i < |kept|
      ensures kept[i] != "" && '/' !in kept[i]
    {
      assert TidyAt(rooted, kept, i);
    }
  }

  lemma RootShown()
    ensures Elements("/") == [] && Elements(".") == [] && Rooted("/") && !Rooted(".")
  {
    SplitStep("", "");
    SplitStep(".", "");
    assert "" + "/" + "" == "/";
    assert Split("/") == ["", ""] && Split(".") == ["."];
    assert ["", ""][1..] == [""] && [""][1..] == [] && ["."][1..] == [];
  }

  /** Reading back what Clean shows. */
  lemma ElementsOfShown(rooted: bool, kept: seq<string>)
    requires Tidy(rooted, kept)
    ensures Rooted(Show(rooted, kept)) == rooted && Elements(Show(rooted, kept)) == kept
  {
    if kept == [] {
      RootShown();
    } else {
      TidyElements(rooted, kept);
      hide Tidy;
      SplitJoin(kept);
      ReduceKeeps(rooted, kept);
      JoinStarts(kept);
      if rooted {
        RootedElements(Join(kept), kept);
      }
    }
  }

  lemma RootedElements(path: string, elements: seq<string>)
    requires Split(path) == elements
    ensures Rooted("/" + path) && Elements("/" + path) == Reduce(true, [], elements)
  {
    SplitStep("", path);
    assert "" + "/" + path == "/" + path;
    assert ([""] + elements)[1..] == elements;
  }

  lemma JoinStarts(kept: seq<string>)
    requires kept != [] && forall e :: e in kept ==> e != "" && '/' !in e
    ensures !Rooted(Join(kept)) && Join(kept) != ""
  {
    assert kept[0] in kept && kept[0][0] in kept[0];
  }

  lemma ElementsTidy(path: string)
    ensures Tidy(Rooted(path), Elements(path))
  {
    ReduceTidy(Rooted(path), [], Split(path));
  }

  /** Cleaning twice is cleaning once. */
  lemma CleanIdempotent(path: string)
    ensures Clean(Clean(path)) == Clean(path)
  {
    hide Tidy, Elements, Show;
    ElementsTidy(path);
    ElementsOfShown(Rooted(path), Elements(path));
  }

  /** One more element at the end of a path. */
  lemma ElementsMore(path: string, e: string)
    requires path != "" && '/' !in e
    ensures Rooted(path + "/" + e) == Rooted(path)
    ensures Elements(path + "/" + e) == Push(Rooted(path), Elements(path), e)
  {
    hide Split, Push;
    assert (path + "/" + e)[0] == path[0];
    SplitMore(path, e);
    ReduceMore(Rooted(path), [], Split(path), [e]);
    assert [e][1..] == [];
  }

  /**
    What cleaning means: a trailing slash and a "." change nothing, and descending into an
    element and going back up leads to where one was.
   */
  lemma CleanLaws(path: string, e: string)
    requires path != "" && '/' !in e && e != "" && e != "." && e != ".."
    ensures Clean(path + "/" + "") == Clean(path)
    ensures Clean(path + "/" + ".") == Clean(path)
    ensures Clean(path + "/" + e + "/" + "..") == Clean(path)
  {
    hide Elements, Show;
    ElementsMore(path, "");
    ElementsMore(path, ".");
    ElementsMore(path, e);
    ElementsMore(path + "/" + e, "..");
    var kept := Elements(path);
    assert (kept + [e])[..|kept|] == kept;
  }

  // ---------------------------------------------------------------- what a path leads to

  /** One step from a directory, given as the names on the way to it from the root. */
  function Go(at: seq<string>, e: string): seq<string> {
    if e == "" || e == "." then at
    else if e != ".." then at + [e]
    else if at == [] then [] else at[..|at| - 1]
  }

  function Walk(at: seq<string>, elements: seq<string>): seq<string>
    decreases |elements|
  {
    if elements == [] then at else Walk(Go(at, elements[0]), elements[1..])
  }

  /** Where a path leads from a directory, if no element of it is a link. */
  function LeadsTo(at: seq<string>, path: string): seq<string> {
    Walk(if Rooted(path) then [] else at, Split(path))
  }

  lemma {:induction false} WalkMore(at: seq<string>, elements: seq<string>, e: string)
    ensures Walk(at, elements + [e]) == Go(Walk(at, elements), e)
    decreases |elements|
  {
    hide Go;
    if elements == [] {
      assert [e][1..] == [];
    } else {
      assert (elements + [e])[1..] == elements[1..] + [e];
      WalkMore(Go(at, elements[0]), elements[1..], e);
    }
  }

  lemma PushWalks(rooted: bool, at: seq<string>, kept: seq<string>, e: string)
    requires Tidy(rooted, kept) && (rooted ==> at == [])
    ensures Walk(at, Push(rooted, kept, e)) == Go(Walk(at, kept), e)
  {
    WalkMore(at, kept, e);
    if kept != [] {
      var n := |kept| - 1;
      assert TidyAt(rooted, kept, n);
      assert kept == kept[..n] + [kept[n]];
      WalkMore(at, kept[..n], kept[n]);
    }
  }

  lemma {:induction false} ReduceWalks(rooted: bool, at: seq<string>, kept: seq<string>, elements: seq<string>)
    requires Tidy(rooted, kept) && (rooted ==> at == []) && forall e :: e in elements ==> '/' !in e
    ensures Walk(at, Reduce(rooted, kept, elements)) == Walk(Walk(at, kept), elements)
    decreases |elements|
  {
    hide Tidy, Push, Go;
    if elements != [] {
      PushWalks(rooted, at, kept, elements[0]);
      PushKeepsTidy(rooted, kept, elements[0]);
      ReduceWalks(rooted, at, Push(rooted, kept, elements[0]), elements[1..]);
    }
  }

  lemma ElementsLead(at: seq<string>, path: string)
    ensures LeadsTo(at, path) == Walk(if Rooted(path) then [] else at, Elements(path))
  {
    hide Split, Reduce, Go;
    ReduceWalks(Rooted(path), if Rooted(path) then [] else at, [], Split(path));
  }

  /** A cleaned path leads where the path did, from every directory. */
  lemma CleanLeadsThere(at: seq<string>, path: string)
    ensures LeadsTo(at, Clean(path)) == LeadsTo(at, path)
  {
    hide Tidy, Elements, Show, Walk, LeadsTo;
    ElementsLead(at, path);
    ElementsLead(at, Clean(path));
    ElementsTidy(path);
    ElementsOfShown(Rooted(path), Elements(path));
  }

  /**
    And it is as short as can be told from the text: still absolute or still relative, "/" or
    "." where nothing is left, and else no empty or "." element and ".." only in front of a
    relative path.
   */
  lemma CleanIsTidy(path: string)
    ensures var c := Clean(path);
      && Rooted(c) == Rooted(path) && c != ""
      && (c == "." || c == "/" || Tidy(Rooted(c), if Rooted(c) then Split(c)[1..] else Split(c)))
  {
    var rooted, kept := Rooted(path), Elements(path);
    ElementsTidy(path);
    ElementsOfShown(rooted, kept);
    ShownNotEmpty(rooted, kept);
    hide Elements, Tidy;
    if kept != [] {
      TidyElements(rooted, kept);
      SplitJoin(kept);
      if rooted {
        SplitStep("", Join(kept));
        assert "" + "/" + Join(kept) == "/" + Join(kept);
        assert ([""] + kept)[1..] == kept;
      }
    }
  }

  /** Splitting and joining are each other's inverses. */
  lemma {:induction false} JoinSplit(path: string)
    ensures Join(Split(path)) == path
    decreases |path|
  {
    var i := Index(path, "/");
    if i != -1 {
      FirstSlash(path, i);
      JoinSplit(path[i + 1..]);
      assert Split(path)[1..] == Split(path[i + 1..]);
    }
  }

  // ---------------------------------------------------------------- resolvePlaybook

  /** The service's directory, with its default. */
  function PlaybookDir(configured: string): string {
    if configured == "" then "ansible/playbooks" else configured
  }

  predicate IsPlaybook(name: string) {
    HasSuffix(name, ".yml") || HasSuffix(name, ".yaml")
  }

  function ResolvePlaybook(configured: string, name: string): Result<string> {
    if name == "" then Err(Invalid)
    else if ".." in Split(name) then Err(Invalid)
    else if !IsPlaybook(name) then Err(Invalid)
    else if '/' in name then Ok(name)
    else
      var base := Clean(PlaybookDir(configured));
      var resolved := Clean(Clean(base + "/" + name));
      if resolved != base && !HasPrefix(resolved, base + "/") then Err(Invalid) else Ok(resolved)
  }

  /** A bare file name below a cleaned directory. */
  lemma CleanBelow(path: string, name: string)
    requires name != "" && name != "." && name != ".." && '/' !in name
    ensures Clean(Clean(path) + "/" + name) == Show(Rooted(path), Elements(path) + [name])
    ensures Tidy(Rooted(path), Elements(path) + [name])
  {
    hide Split, Reduce, Tidy, Push, Join;
    var rooted, kept, base := Rooted(path), Elements(path), Clean(path);
    ElementsTidy(path);
    ElementsOfShown(rooted, kept);
    SplitMore(base, name);
    ReduceMore(rooted, [], Split(base), [name]);
    ReduceName(rooted, kept, name);
    assert base != "" ==> (base + "/" + name)[0] == base[0];
    ShownNotEmpty(rooted, kept);
  }

  lemma ReduceName(rooted: bool, kept: seq<string>, name: string)
    requires Tidy(rooted, kept) && name != "" && name != "." && name != ".." && '/' !in name
    ensures Reduce(rooted, kept, [name]) == kept + [name] && Tidy(rooted, kept + [name])
  {
    assert [name][1..] == [];
    PushKeepsTidy(rooted, kept, name);
  }

  lemma ShownNotEmpty(rooted: bool, kept: seq<string>)
    requires Tidy(rooted, kept)
    ensures Show(rooted, kept) != ""
  {
    if kept != [] {
      TidyElements(rooted, kept);
      JoinStarts(kept);
    }
  }

  lemma {:induction false} SplitMore(path: string, name: string)
    requires '/' !in name
    ensures Split(path + "/" + name) == Split(path) + [name]
    decreases |path|
  {
    hide At, Join, Index;
    var i := Index(path, "/");
    if i == -1 {
      NoSlash(path);
      SplitStep(path, name);
      SplitStep(name, "");
    } else {
      FirstSlash(path, i);
      var first, rest := path[..i], path[i + 1..];
      SplitMore(rest, name);
      SplitStep(first, rest);
      SplitStep(first, rest + "/" + name);
      assert path + "/" + name == first + "/" + (rest + "/" + name);
    }
  }

  lemma PlaybookIsNoDot(name: string)
    requires IsPlaybook(name)
    ensures name != "" && name != "." && name != ".."
  {
  }

  /**
    A bare name resolves to exactly the cleaned directory, a slash and the name; the prefix
    check at the end refuses it exactly when the cleaned directory is "." or "/".
   */
  lemma BareNameResolves(configured: string, name: string)
    requires '/' !in name && IsPlaybook(name)
    ensures var base := Clean(PlaybookDir(configured));
      ResolvePlaybook(configured, name) ==
        if base == "." || base == "/" then Err(Invalid) else Ok(base + "/" + name)
  {
    hide IsPlaybook, Split, Reduce, Tidy, Join, Elements;
    var dir := PlaybookDir(configured);
    var rooted, kept, base := Rooted(dir), Elements(dir), Clean(dir);
    PlaybookIsNoDot(name);
    SplitStep(name, "");
    CleanBelow(dir, name);
    ElementsTidy(dir);
    ElementsOfShown(rooted, kept + [name]);
    ShownBelow(rooted, kept, name);
  }

  /** How the path below a directory is shown. */
  lemma ShownBelow(rooted: bool, kept: seq<string>, name: string)
    requires Tidy(rooted, kept) && '/' !in name && name != "" && name != "."
    ensures var base, resolved := Show(rooted, kept), Show(rooted, kept + [name]);
      && resolved != base
      && (base == "." || base == "/" ==> !HasPrefix(resolved, base + "/"))
      && (base != "." && base != "/" ==> resolved == base + "/" + name && HasPrefix(resolved, base + "/"))
  {
    hide Tidy;
    var base, resolved := Show(rooted, kept), Show(rooted, kept + [name]);
    if kept == [] {
      assert [] + [name] == [name];
      assert resolved == if rooted then "/" + name else name;
      DotPrefix(name);
    } else {
      JoinMore(kept, name);
      NotDot(rooted, kept);
      hide Join;
      assert resolved == base + "/" + name;
      assert resolved[..|base + "/"|] == base + "/";
    }
  }

  lemma NotDot(rooted: bool, kept: seq<string>)
    requires kept != [] && Tidy(rooted, kept)
    ensures Show(rooted, kept) != "." && Show(rooted, kept) != "/"
  {
    hide Show, Elements;
    ElementsOfShown(rooted, kept);
    RootShown();
  }

  lemma DotPrefix(name: string)
    requires '/' !in name && name != "" && name != "."
    ensures !HasPrefix(name, "./") && !HasPrefix("/" + name, "//")
    ensures "/" + name != "/"
  {
    var rooted := "/" + name;
    assert rooted[1] == name[0] && name[0] in name;
    assert rooted[..2][1] == rooted[1];
    if |name| >= 2 {
      assert name[1] in name && name[..2][1] == name[1];
    }
  }

  /**
    Which names are accepted, and as what: those that end in .yml or .yaml and have no ".."
    element; with a slash as they are, without one below the directory.
   */
  lemma AcceptedExactly(configured: string, name: string)
    ensures var base := Clean(if configured == "" then "ansible/playbooks" else configured);
      ResolvePlaybook(configured, name) ==
        if !(HasSuffix(name, ".yml") || HasSuffix(name, ".yaml")) || ".." in Split(name) then Err(Invalid)
        else if '/' in name then Ok(name)
        else if base == "." || base == "/" then Err(Invalid)
        else Ok(base + "/" + name)
  {
    if IsPlaybook(name) && '/' !in name {
      PlaybookIsNoDot(name);
      SplitStep(name, "");
      BareNameResolves(configured, name);
    }
  }

  /** No accepted path leads out of the place it names: it has no ".." element beyond those of the directory. */
  lemma AcceptedStaysInside(configured: string, name: string)
    requires ResolvePlaybook(configured, name).Ok?
    ensures var path := ResolvePlaybook(configured, name).value;
      && IsPlaybook(path)
      && (if '/' in name then ".." !in Split(path)
          else Split(path) == Split(Clean(PlaybookDir(configured))) + [name])
  {
    AcceptedExactly(configured, name);
    if '/' !in name {
      var base := Clean(PlaybookDir(configured));
      SplitMore(base, name);
      SuffixOfMore(base + "/", name);
    }
  }

  lemma SuffixOfMore(prefix: string, name: string)
    requires IsPlaybook(name)
    ensures IsPlaybook(prefix + name)
  {
    var s := prefix + name;
    assert s[|s| - |name|..] == name;
    assert HasSuffix(name, ".yml") ==> s[|s| - 4..] == name[|name| - 4..];
    assert HasSuffix(name, ".yaml") ==> s[|s| - 5..] == name[|name| - 5..];
  }

  lemma DefaultPath()
    ensures Join(["ansible", "playbooks"]) == "ansible/playbooks"
  {
    assert ["ansible", "playbooks"][1..] == ["playbooks"];
    assert "ansible" + "/" + "playbooks" == "ansible/playbooks";
  }

  /** Without configuration the directory is usable: bare playbook names resolve below it. */
  lemma DefaultDirectory()
    ensures Clean(PlaybookDir("")) == "ansible/playbooks"
  {
    DefaultPath();
    hide Join, Split, Reduce;
    assert Tidy(false, ["ansible", "playbooks"]);
    ElementsOfShown(false, ["ansible", "playbooks"]);
  }
}
