/** Where a document lies in the worktree: a path that no other document owns. */
module DocPaths {
  import opened Text

  datatype Entry = Entry(document: nat, revision: nat, digest: string, path: string)

  /** The state file: an entry per local slug. */
  type State = map<string, Entry>

  /** The worktree's files by path. */
  type Files = map<string, string>

  // ---- Names ----

  function KindDir(kind: string): Option<string>
  {
    if kind == "spec" then Some("specs")
    else if kind == "plan" then Some("plans")
    else if kind == "investigation" then Some("investigations")
    else if kind == "report" then Some("reports")
    else if kind == "other" then Some("other")
    else None
  }

  predicate IsAlnum(c: char) { 'a' <= c <= 'z' || IsDigit(c) }

  const RESERVED := {"con", "prn", "aux", "nul", "com1", "com2", "com3", "com4", "com5", "com6", "com7", "com8", "com9",
                     "lpt1", "lpt2", "lpt3", "lpt4", "lpt5", "lpt6", "lpt7", "lpt8", "lpt9"}

  function BeforeDot(s: string): string
  {
    var k := IndexFrom(s, '.', 0);
    if k == -1 then s else s[..k]
  }

  predicate ValidSlug(slug: string)
  {
    && slug != "" && IsAlnum(slug[0]) && IsAlnum(slug[|slug| - 1])
    && (forall k :: 0 <= k < |slug| ==> IsAlnum(slug[k]) || slug[k] == '.' || slug[k] == '-')
    && BeforeDot(slug) !in RESERVED
  }

  predicate DatedSlug(slug: string)
  {
    && |slug| >= 10
    && (forall k :: 0 <= k < 10 ==> if k == 4 || k == 7 then slug[k] == '-' else IsDigit(slug[k]))
    && (|slug| == 10 || slug[10] == '-')
  }

  function Day(createdAt: string): string { if |createdAt| >= 10 then createdAt[..10] else createdAt }

  /** RelPath */
  function RelPath(kind: string, createdAt: string, slug: string): Option<string>
  {
    var dir := KindDir(kind);
    if dir.None? || !ValidSlug(slug) then None
    else if DatedSlug(slug) then Some(dir.value + "/" + slug + ".md")
    else Some(dir.value + "/" + Day(createdAt) + "-" + slug + ".md")
  }

  // ---- Ownership ----

  /** Different slugs own different paths. */
  ghost predicate Injective(state: State)
  {
    forall a, b :: a in state && b in state && a != b && state[a].path != "" ==> state[a].path != state[b].path
  }

  /** The paths a slug may not take: those of other slugs, and files it does not own itself. */
  function TakenPaths(state: State, files: Files, slug: string): set<string>
  {
    (set other | other in state && other != slug :: state[other].path)
    + (files.Keys - if slug in state then {state[slug].path} else {})
  }

  /** A path that is the slug's own, according to the state file. */
  predicate OwnPath(state: State, slug: string, rel: string) { slug in state && state[slug].path == rel }

  /** The closure `taken` of freeDocPath. Go visits the state in any order: where two slugs claim the
      same path and one is the slug's own, the answer depends on which comes first. */
  method IsTaken(state: State, files: Files, slug: string, rel: string) returns (taken: bool)
    ensures taken ==> rel in TakenPaths(state, files, slug)
    ensures !taken ==> rel !in TakenPaths(state, files, slug) || OwnPath(state, slug, rel)
    ensures Injective(state) && rel != "" ==> (taken <==> rel in TakenPaths(state, files, slug))
  {
    var rest := state.Keys;
    while rest != {}
      invariant rest <= state.Keys
      invariant forall other :: other in state && other !in rest ==> state[other].path != rel
      decreases |rest|
    {
      var other :| other in rest;
      if state[other].path == rel {
        return other != slug;
      }
      rest := rest - {other};
    }
    return rel in files;
  }

  // ---- The search for a free path ----

  /** The n-th path tried: the preferred one, the dated one, then numbered ones. */
  function Candidate(preferred: string, fallback: string, n: nat): string
  {
    if n == 0 then preferred
    else if n == 1 then fallback + ".md"
    else fallback + "-" + Itoa(n) + ".md"
  }

  lemma NumberedApart(preferred: string, fallback: string, m: nat, n: nat)
    requires 2 <= m && 2 <= n && Candidate(preferred, fallback, m) == Candidate(preferred, fallback, n)
    ensures m == n
  {
    var a, b := Candidate(preferred, fallback, m), Candidate(preferred, fallback, n);
    var from := |fallback| + 1;
    assert a[from..|a| - 3] == Itoa(m);
    assert b[from..|b| - 3] == Itoa(n);
    ItoaInjective(m, n);
  }

  /** The numbered paths below n. */
  function Numbered(preferred: string, fallback: string, n: nat): set<string>
  {
    set k: nat | 2 <= k < n :: Candidate(preferred, fallback, k)
  }

  /** How many taken paths the search can still meet. */
  function Untried(taken: set<string>, preferred: string, fallback: string, n: nat): nat
  {
    |taken - Numbered(preferred, fallback, n)|
  }

  /** One more taken path tried leaves fewer: the search ends. */
  lemma SearchShrinks(taken: set<string>, preferred: string, fallback: string, n: nat)
    requires n >= 2 && Candidate(preferred, fallback, n) in taken
    ensures Untried(taken, preferred, fallback, n + 1) < Untried(taken, preferred, fallback, n)
  {
    var c := Candidate(preferred, fallback, n);
    var before, after := taken - Numbered(preferred, fallback, n), taken - Numbered(preferred, fallback, n + 1);
    forall k: nat | 2 <= k < n ensures Candidate(preferred, fallback, k) != c {
      if Candidate(preferred, fallback, k) == c {
        NumberedApart(preferred, fallback, k, n);
      }
    }
    assert c in before && c !in after;
    assert after <= before - {c};
    Fewer(after, before - {c});
  }

  lemma Fewer(a: set<string>, b: set<string>)
    requires a <= b
    ensures |a| <= |b|
  {
    assert b == a + (b - a);
  }

  /** From the n-th path on, the first that is not taken. */
  function FirstFree(taken: set<string>, preferred: string, fallback: string, n: nat): (p: string)
    requires n >= 2
    ensures p !in taken
    decreases Untried(taken, preferred, fallback, n)
  {
    var c := Candidate(preferred, fallback, n);
    if c !in taken then c
    else
      SearchShrinks(taken, preferred, fallback, n);
      FirstFree(taken, preferred, fallback, n + 1)
  }

  /** freeDocPath */
  function FreePath(state: State, files: Files, kind: string, createdAt: string, slug: string): (p: Option<string>)
    ensures p.Some? <==> KindDir(kind).Some? && ValidSlug(slug)
    ensures p.Some? ==> p.value !in TakenPaths(state, files, slug)
  {
    match RelPath(kind, createdAt, slug)
    case None => None
    case Some(preferred) =>
      var taken := TakenPaths(state, files, slug);
      var fallback := KindDir(kind).value + "/" + Day(createdAt) + "-" + slug;
      if preferred !in taken then Some(preferred)
      else if fallback + ".md" !in taken then Some(fallback + ".md")
      else Some(FirstFree(taken, preferred, fallback, 2))
  }

  /** The search as a loop. It ends for any state file, because the numbered paths are all different
      and only finitely many paths are taken; what it finds is free, or the slug's own. */
  method FindFreePath(state: State, files: Files, kind: string, createdAt: string, slug: string) returns (p: Option<string>)
    ensures p.Some? <==> KindDir(kind).Some? && ValidSlug(slug)
    ensures p.Some? ==> p.value !in TakenPaths(state, files, slug) || OwnPath(state, slug, p.value)
    ensures Injective(state) ==> p == FreePath(state, files, kind, createdAt, slug)
  {
    var rel := RelPath(kind, createdAt, slug);
    if rel.None? {
      return None;
    }
    var preferred := rel.value;
    var taken := IsTaken(state, files, slug, preferred);
    if !taken {
      return Some(preferred);
    }
    var fallback := KindDir(kind).value + "/" + Day(createdAt) + "-" + slug;
    taken := IsTaken(state, files, slug, fallback + ".md");
    if !taken {
      return Some(fallback + ".md");
    }
    var n := 2;
    ghost var all := TakenPaths(state, files, slug);
    while true
      invariant n >= 2
      invariant FirstFree(all, preferred, fallback, n) == FirstFree(all, preferred, fallback, 2)
      decreases Untried(all, preferred, fallback, n)
    {
      var c := Candidate(preferred, fallback, n);
      taken := IsTaken(state, files, slug, c);
      if !taken {
        return Some(c);
      }
      SearchShrinks(all, preferred, fallback, n);
      n := n + 1;
    }
  }

  /** A free path is nobody else's, and no file lies there that the slug does not own. */
  lemma FreeMeansFree(state: State, files: Files, kind: string, createdAt: string, slug: string)
    ensures match FreePath(state, files, kind, createdAt, slug)
            case None => true
            case Some(p) =>
              && (forall other :: other in state && other != slug ==> state[other].path != p)
              && (p in files ==> slug in state && state[slug].path == p)
  {
    var p := FreePath(state, files, kind, createdAt, slug);
    if p.Some? {
      forall other | other in state && other != slug ensures state[other].path != p.value {
        assert state[other].path in TakenPaths(state, files, slug);
      }
    }
  }

  // ---- Which path it is ----

  /** The first n paths tried are taken. */
  predicate TakenUpTo(taken: set<string>, preferred: string, fallback: string, n: nat)
  {
    forall k: nat :: k < n ==> Candidate(preferred, fallback, k) in taken
  }

  /** The n-th path tried is the first that is not taken. */
  predicate FirstTried(taken: set<string>, preferred: string, fallback: string, n: nat)
  {
    Candidate(preferred, fallback, n) !in taken && TakenUpTo(taken, preferred, fallback, n)
  }

  lemma OneMoreTaken(taken: set<string>, preferred: string, fallback: string, n: nat)
    requires TakenUpTo(taken, preferred, fallback, n) && Candidate(preferred, fallback, n) in taken
    ensures TakenUpTo(taken, preferred, fallback, n + 1)
  {
  }

  /** This path is the m-th tried, and the first that is not taken. */
  predicate FoundAs(taken: set<string>, preferred: string, fallback: string, m: nat, p: string)
  {
    p == Candidate(preferred, fallback, m) && FirstTried(taken, preferred, fallback, m)
  }

  lemma FoundHere(taken: set<string>, preferred: string, fallback: string, n: nat)
    requires n >= 2 && TakenUpTo(taken, preferred, fallback, n) && Candidate(preferred, fallback, n) !in taken
    ensures FoundAs(taken, preferred, fallback, n, FirstFree(taken, preferred, fallback, n))
  {
  }

  lemma SearchGoesOn(taken: set<string>, preferred: string, fallback: string, n: nat, next: nat)
    requires n >= 2 && next == n + 1 && TakenUpTo(taken, preferred, fallback, n) && Candidate(preferred, fallback, n) in taken
    ensures FirstFree(taken, preferred, fallback, n) == FirstFree(taken, preferred, fallback, next)
    ensures TakenUpTo(taken, preferred, fallback, next)
    ensures Untried(taken, preferred, fallback, next) < Untried(taken, preferred, fallback, n)
  {
    SearchShrinks(taken, preferred, fallback, n);
    OneMoreTaken(taken, preferred, fallback, n);
  }

  lemma {:induction false} FirstFreeIs(taken: set<string>, preferred: string, fallback: string, n: nat, left: nat, p: string) returns (m: nat)
    requires n >= 2 && TakenUpTo(taken, preferred, fallback, n) && Untried(taken, preferred, fallback, n) <= left
    requires p == FirstFree(taken, preferred, fallback, n)
    ensures FoundAs(taken, preferred, fallback, m, p)
    decreases left
  {
    if Candidate(preferred, fallback, n) in taken {
      var next := n + 1;
      SearchGoesOn(taken, preferred, fallback, n, next);
      m := FirstFreeIs(taken, preferred, fallback, next, left - 1, p);
    } else {
      FoundHere(taken, preferred, fallback, n);
      m := n;
    }
  }

  /** Another slug's entry claims the path, or a file lies there that is not this slug's. */
  predicate Claimed(state: State, files: Files, slug: string, rel: string)
  {
    || (exists other :: other in state && other != slug && state[other].path == rel)
    || (rel in files && !(slug in state && state[slug].path == rel))
  }

  lemma TakenIsClaimed(state: State, files: Files, slug: string, rel: string)
    ensures rel in TakenPaths(state, files, slug) <==> Claimed(state, files, slug, rel)
  {
  }

  /** The preferred path if it can be had, else the dated one, else the least number. */
  lemma FreePathIsFirst(state: State, files: Files, kind: string, createdAt: string, slug: string) returns (n: nat)
    requires FreePath(state, files, kind, createdAt, slug).Some?
    ensures RelPath(kind, createdAt, slug).Some? && KindDir(kind).Some?
    ensures var preferred := RelPath(kind, createdAt, slug).value;
            var fallback := KindDir(kind).value + "/" + Day(createdAt) + "-" + slug;
            && FreePath(state, files, kind, createdAt, slug) == Some(Candidate(preferred, fallback, n))
            && !Claimed(state, files, slug, Candidate(preferred, fallback, n))
            && forall k: nat :: k < n ==> Claimed(state, files, slug, Candidate(preferred, fallback, k))
  {
    var preferred := RelPath(kind, createdAt, slug).value;
    var fallback := KindDir(kind).value + "/" + Day(createdAt) + "-" + slug;
    var taken := TakenPaths(state, files, slug);
    forall rel ensures rel in taken <==> Claimed(state, files, slug, rel) {
      TakenIsClaimed(state, files, slug, rel);
    }
    if preferred !in taken {
      n := 0;
    } else if fallback + ".md" !in taken {
      n := 1;
    } else {
      assert Candidate(preferred, fallback, 0) == preferred && Candidate(preferred, fallback, 1) == fallback + ".md";
      n := FirstFreeIs(taken, preferred, fallback, 2, Untried(taken, preferred, fallback, 2), FirstFree(taken, preferred, fallback, 2));
    }
  }

  // ---- Its directory ----

  /** The first part of the path. */
  predicate InDir(path: string, dir: string)
  {
    path == dir || (|dir| < |path| && path[..|dir|] == dir && path[|dir|] == '/')
  }

  lemma StaysInDir(dir: string, name: string, more: string)
    ensures InDir(dir + "/" + name + more, dir)
  {
    assert (dir + "/" + name + more)[..|dir|] == dir;
  }

  lemma CandidateInDir(dir: string, preferred: string, fallback: string, name: string, base: string, n: nat)
    requires preferred == dir + "/" + name + ".md" && fallback == dir + "/" + base
    ensures InDir(Candidate(preferred, fallback, n), dir)
  {
    StaysInDir(dir, name, ".md");
    StaysInDir(dir, base, ".md");
    StaysInDir(dir, base, "-" + Itoa(n) + ".md");
    assert fallback + "-" + Itoa(n) + ".md" == fallback + ("-" + Itoa(n) + ".md");
  }

  /** The preferred name without its ending. */
  function FirstName(createdAt: string, slug: string): string { if DatedSlug(slug) then slug else Dated(createdAt, slug) }

  function Dated(createdAt: string, slug: string): string { Day(createdAt) + "-" + slug }

  lemma NamesAre(kind: string, createdAt: string, slug: string, dir: string)
    requires KindDir(kind) == Some(dir) && ValidSlug(slug)
    ensures RelPath(kind, createdAt, slug) == Some(dir + "/" + FirstName(createdAt, slug) + ".md")
    ensures dir + "/" + Day(createdAt) + "-" + slug == dir + "/" + Dated(createdAt, slug)
  {
    assert dir + "/" + Day(createdAt) + "-" + slug == dir + "/" + Dated(createdAt, slug);
  }

  /** A document lies in the directory of its kind. */
  lemma FreePathInDir(state: State, files: Files, kind: string, createdAt: string, slug: string)
    requires FreePath(state, files, kind, createdAt, slug).Some?
    ensures KindDir(kind).Some? && InDir(FreePath(state, files, kind, createdAt, slug).value, KindDir(kind).value)
  {
    var n := FreePathIsFirst(state, files, kind, createdAt, slug);
    var dir := KindDir(kind).value;
    NamesAre(kind, createdAt, slug, dir);
    CandidateInDir(dir, RelPath(kind, createdAt, slug).value, dir + "/" + Dated(createdAt, slug), FirstName(createdAt, slug),
                   Dated(createdAt, slug), n);
  }

  // ---- The preferred name ----

  predicate Digits(s: string) { forall k :: 0 <= k < |s| ==> IsDigit(s[k]) }

  /** Four digits, two and two with dashes between, and then the end or another dash. */
  predicate StartsWithDate(slug: string)
  {
    && |slug| >= 10 && Digits(slug[..4]) && slug[4] == '-' && Digits(slug[5..7]) && slug[7] == '-' && Digits(slug[8..10])
    && (|slug| > 10 ==> slug[10] == '-')
  }

  lemma DateIs(slug: string)
    ensures StartsWithDate(slug) <==> DatedSlug(slug)
  {
    if DatedSlug(slug) {
      assert Digits(slug[..4]) && Digits(slug[5..7]) && Digits(slug[8..10]);
    }
    if StartsWithDate(slug) {
      assert forall k :: 0 <= k < 4 ==> slug[k] == slug[..4][k];
      assert slug[5] == slug[5..7][0] && slug[6] == slug[5..7][1] && slug[8] == slug[8..10][0] && slug[9] == slug[8..10][1];
    }
  }

  /** A slug that starts with a date is the name itself; any other gets the first ten characters of the
      creation date in front. */
  lemma RelPathExactly(kind: string, createdAt: string, slug: string)
    ensures RelPath(kind, createdAt, slug)
            == if KindDir(kind).None? || !ValidSlug(slug) then None
               else Some(KindDir(kind).value + "/"
                         + (if StartsWithDate(slug) then slug
                            else (if |createdAt| > 10 then createdAt[..10] else createdAt) + "-" + slug) + ".md")
  {
    DateIs(slug);
    var day := if |createdAt| > 10 then createdAt[..10] else createdAt;
    assert |createdAt| == 10 ==> createdAt[..10] == createdAt;
    if KindDir(kind).Some? {
      var dir := KindDir(kind).value;
      assert dir + "/" + (day + "-" + slug) + ".md" == dir + "/" + day + "-" + slug + ".md";
    }
  }

  lemma NoSlashInNumber(n: nat)
    ensures '/' !in Itoa(n)
  {
    assert !IsDigit('/');
  }

  lemma NoSlashIn(slug: string)
    requires ValidSlug(slug)
    ensures '/' !in slug
  {
    assert !IsAlnum('/');
  }

  lemma OneName(dir: string, preferred: string, fallback: string, first: string, base: string, n: nat) returns (name: string)
    requires preferred == dir + "/" + first + ".md" && fallback == dir + "/" + base && '/' !in first && '/' !in base
    ensures Candidate(preferred, fallback, n) == dir + "/" + name && '/' !in name
  {
    NoSlashInNumber(n);
    var more := if n == 0 then first + ".md" else if n == 1 then base + ".md" else base + ("-" + Itoa(n) + ".md");
    name := more;
    if n == 0 {
      assert dir + "/" + first + ".md" == dir + "/" + name;
    } else if n == 1 {
      assert dir + "/" + base + ".md" == dir + "/" + name;
    } else {
      assert dir + "/" + base + "-" + Itoa(n) + ".md" == dir + "/" + name;
    }
  }

  /** One name in one directory: no other slash, whatever slug a caller gives. */
  lemma StaysInside(state: State, files: Files, kind: string, createdAt: string, slug: string) returns (name: string)
    requires FreePath(state, files, kind, createdAt, slug).Some? && '/' !in Day(createdAt)
    ensures KindDir(kind).Some? && FreePath(state, files, kind, createdAt, slug) == Some(KindDir(kind).value + "/" + name)
    ensures '/' !in name
  {
    var n := FreePathIsFirst(state, files, kind, createdAt, slug);
    var dir := KindDir(kind).value;
    NoSlashIn(slug);
    NamesAre(kind, createdAt, slug, dir);
    name := OneName(dir, RelPath(kind, createdAt, slug).value, dir + "/" + Dated(createdAt, slug), FirstName(createdAt, slug),
                    Dated(createdAt, slug), n);
  }
}
