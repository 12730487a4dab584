/** The document worktree: new, pull, push and rename, over files, the saved state and the
    server's slugs. */
module Worktree {
  import opened Text
  import opened DocPaths

  /** What the server knows of a document. */
  datatype Remote = Remote(id: nat, kind: string, createdAt: string, head: nat, body: string, digest: string)

  /** How a rename on the server went: whether it took effect, and whether it was reported so. */
  datatype Patch = Patch(applied: bool, reported: bool)

  /** Everything a rename meets. The last two are the compensations. */
  datatype MoveAnswers = MoveAnswers(found: Option<Remote>, moves: bool, patch: Patch, saves: bool, unpatch: Patch, movesBack: bool)

  /** Files, saved state, and the slug of each document on the server. */
  datatype World = World(files: Files, saved: State, slugs: map<nat, string>)

  /** MoveFile: refused when a path is empty, the source is missing, the target exists, or the disk
      fails. */
  function Move(files: Files, from: string, to: string, works: bool): (r: (bool, Files))
  {
    if from != "" && to != "" && works && from in files && to !in files
    then (true, (files - {from})[to := files[from]])
    else (false, files)
  }

  function Rename(slugs: map<nat, string>, id: nat, slug: string, p: Patch): map<nat, string>
  {
    if p.applied then slugs[id := slug] else slugs
  }

  /** The kind that a path's directory stands for, and the date its name starts with. */
  function KindOfPath(path: string): Option<string>
  {
    var k := IndexFrom(path, '/', 0);
    var dir := if k == -1 then path else path[..k];
    if dir == "specs" then Some("spec")
    else if dir == "plans" then Some("plan")
    else if dir == "investigations" then Some("investigation")
    else if dir == "reports" then Some("report")
    else if dir == "other" then Some("other")
    else None
  }

  lemma InDirFirst(path: string, dir: string)
    requires '/' !in dir
    ensures InDir(path, dir) <==> dir == var k := IndexFrom(path, '/', 0); if k == -1 then path else path[..k]
  {
    var k := IndexFrom(path, '/', 0);
    if InDir(path, dir) && path != dir {
      assert forall j :: 0 <= j < |dir| ==> path[j] == path[..|dir|][j] == dir[j];
      assert k == |dir|;
    }
  }

  lemma DirsAreNames(kind: string)
    ensures KindDir(kind).Some? ==> '/' !in KindDir(kind).value
  {
  }

  /** The kind read off a path is the one whose directory it lies in. */
  lemma KindIsDir(path: string, kind: string)
    ensures KindOfPath(path) == Some(kind) <==> KindDir(kind).Some? && InDir(path, KindDir(kind).value)
  {
    DirsAreNames(kind);
    if KindDir(kind).Some? {
      InDirFirst(path, KindDir(kind).value);
    }
  }

  /** A document that was given a path keeps its kind: what a later push or rename reads off it. */
  lemma KindComesBack(state: State, files: Files, kind: string, createdAt: string, slug: string)
    requires FreePath(state, files, kind, createdAt, slug).Some?
    ensures KindOfPath(FreePath(state, files, kind, createdAt, slug).value) == Some(kind)
  {
    FreePathInDir(state, files, kind, createdAt, slug);
    KindIsDir(FreePath(state, files, kind, createdAt, slug).value, kind);
  }

  function LastSlash(path: string, n: nat): (k: int)
    requires n <= |path|
    ensures -1 <= k < n
  {
    if n == 0 then -1 else if path[n - 1] == '/' then n - 1 else LastSlash(path, n - 1)
  }

  function BaseOf(path: string): string { path[LastSlash(path, |path|) + 1..] }

  /** The saved state after a rename. */
  function Renamed(state: State, slug: string, newSlug: string, path: string): State
    requires slug in state
  {
    (state - {slug})[newSlug := state[slug].(path := path)]
  }

  lemma RenamedInjective(state: State, files: Files, slug: string, newSlug: string, path: string)
    requires Injective(state) && slug in state && newSlug !in state
    requires path !in TakenPaths(state, files, newSlug)
    ensures Injective(Renamed(state, slug, newSlug, path))
  {
    var r := Renamed(state, slug, newSlug, path);
    forall a, b | a in r && b in r && a != b && r[a].path != "" ensures r[a].path != r[b].path {
      assert a != newSlug ==> a in state && r[a] == state[a] && state[a].path in TakenPaths(state, files, newSlug);
      assert b != newSlug ==> b in state && r[b] == state[b] && state[b].path in TakenPaths(state, files, newSlug);
    }
  }

  lemma SetInjective(state: State, files: Files, slug: string, e: Entry)
    requires Injective(state)
    requires e.path !in TakenPaths(state, files, slug) || (slug in state && e.path == state[slug].path)
    ensures Injective(state[slug := e])
  {
    var r := state[slug := e];
    forall a, b | a in r && b in r && a != b && r[a].path != "" ensures r[a].path != r[b].path {
      assert a != slug ==> a in state && state[a].path in TakenPaths(state, files, slug);
      assert b != slug ==> b in state && state[b].path in TakenPaths(state, files, slug);
    }
  }

  // ---- Rename as a sequence of steps with compensations ----

  /** docMove of a local document: file, then server, then saved state; each failure undoes what
      came before. `id` is 0 for a document that was never pushed. */
  function MoveLocal(w: World, slug: string, newSlug: string, newPath: string, id: nat, a: MoveAnswers): (bool, World)
    requires slug in w.saved
  {
    var oldPath := w.saved[slug].path;
    var (moved, files) := Move(w.files, oldPath, newPath, a.moves);
    if !moved then (false, w)
    else
      var slugs := if id == 0 then w.slugs else Rename(w.slugs, id, newSlug, a.patch);
      if id != 0 && !a.patch.reported then
        (false, World(Move(files, newPath, oldPath, a.movesBack).1, w.saved, slugs))
      else if !a.saves then
        (false, World(Move(files, newPath, oldPath, a.movesBack).1, w.saved,
                      if id == 0 then slugs else Rename(slugs, id, slug, a.unpatch)))
      else (true, World(files, Renamed(w.saved, slug, newSlug, newPath), slugs))
  }

  /** The compensations worked, and a refused rename had not taken effect. */
  predicate Undone(id: nat, a: MoveAnswers)
  {
    && a.movesBack
    && (id != 0 ==> if a.patch.reported then a.unpatch.applied || !a.patch.applied else !a.patch.applied)
  }

  /** All or nothing, exactly: a rename that fails behind the first file move leaves everything as
      it was if and only if its compensations work and the server's refusal was true. */
  lemma AllOrNothing(w: World, slug: string, newSlug: string, newPath: string, id: nat, a: MoveAnswers)
    requires slug in w.saved && slug != newSlug
    requires id != 0 ==> id in w.slugs && w.slugs[id] == slug
    ensures var (ok, w') := MoveLocal(w, slug, newSlug, newPath, id, a);
            var oldPath := w.saved[slug].path;
            var moved := Move(w.files, oldPath, newPath, a.moves).0;
            && (!moved ==> !ok && w' == w)
            && (moved && !ok ==> (w' == w <==> Undone(id, a)))
            && (ok ==> && w'.files == (w.files - {oldPath})[newPath := w.files[oldPath]]
                       && w'.saved == Renamed(w.saved, slug, newSlug, newPath)
                       && (id != 0 && a.patch.applied ==> w'.slugs == w.slugs[id := newSlug]))
  {
    var oldPath := w.saved[slug].path;
    var (moved, files) := Move(w.files, oldPath, newPath, a.moves);
    if moved {
      assert newPath != oldPath;
      assert (files - {newPath})[oldPath := files[newPath]] == w.files;
      assert files != w.files;
      if id != 0 {
        assert w.slugs[id := slug] == w.slugs;
        assert w.slugs[id := newSlug][id := slug] == w.slugs;
        assert w.slugs[id := newSlug][id] != w.slugs[id];
      }
    }
  }

  /** Both files are as the move needs them, the server agrees where it is asked, and the disk obeys. */
  predicate CanMove(w: World, slug: string, newPath: string, id: nat, a: MoveAnswers)
    requires slug in w.saved
  {
    && w.saved[slug].path != "" && w.saved[slug].path in w.files && newPath != "" && newPath !in w.files
    && a.moves && (id != 0 ==> a.patch.reported) && a.saves
  }

  lemma MoveExactly(w: World, slug: string, newSlug: string, newPath: string, id: nat, a: MoveAnswers)
    requires slug in w.saved
    ensures MoveLocal(w, slug, newSlug, newPath, id, a).0 <==> CanMove(w, slug, newPath, id, a)
  {
  }

  /** The path a rename aims at, empty when there is none. */
  function TargetOf(state: State, files: Files, kind: string, createdAt: string, newSlug: string): string
  {
    match FreePath(state, files, kind, createdAt, newSlug) case Some(p) => p case None => ""
  }

  /** The new path and the document of a local rename, where it comes to that. */
  function PlanOf(state: State, files: Files, slug: string, newSlug: string, a: MoveAnswers): Option<(string, nat)>
    requires slug in state
  {
    var path := state[slug].path;
    if state[slug].document == 0 then
      match KindOfPath(path)
      case None => None
      case Some(kind) => Some((TargetOf(state, files, kind, Day(BaseOf(path)), newSlug), 0))
    else match a.found
      case None => None
      case Some(r) => Some((TargetOf(state, files, r.kind, r.createdAt, newSlug), r.id))
  }

  // ---- Pull and push ----

  /** What a pull and a push meet. */
  datatype PullAnswers = PullAnswers(force: bool, readable: bool, remote: Option<Remote>, writes: bool, saves: bool)

  datatype PushAnswers = PushAnswers(message: string, readable: bool, clean: bool, pushed: Option<Remote>, saves: bool, removes: bool, savesAgain: bool)

  /** docHasChanged, for a slug whose file is there. */
  predicate Edited(w: World, slug: string, digest: string -> string)
    requires slug in w.saved && w.saved[slug].path in w.files
  {
    digest(w.files[w.saved[slug].path]) != w.saved[slug].digest
  }

  /** Where a pull puts a document: at its old path if it has one, else at a free one. */
  function PullPath(w: World, slug: string, r: Remote): Option<string>
  {
    match FreePath(w.saved, w.files, r.kind, r.createdAt, slug)
    case None => None
    case Some(free) => Some(if slug in w.saved && w.saved[slug].path != "" then w.saved[slug].path else free)
  }

  /** docPull */
  function PullFrom(w: World, slug: string, digest: string -> string, a: PullAnswers): (bool, World)
  {
    if && slug in w.saved && w.saved[slug].digest != "" && !a.force
       && w.saved[slug].path in w.files && (!a.readable || Edited(w, slug, digest)) then (false, w)
    else match a.remote
      case None => (false, w)
      case Some(r) =>
        var path := PullPath(w, slug, r);
        if path.None? || !a.writes then (false, w)
        else
          var files := w.files[path.value := r.body];
          if !a.saves then (false, w.(files := files))
          else (true, w.(files := files, saved := w.saved[slug := Entry(r.id, r.head, r.digest, path.value)]))
  }

  /** docPush. `pushed` is the server's answer (None: refused or in conflict); nothing is saved
      without it. */
  function PushTo(w: World, slug: string, digest: string -> string, a: PushAnswers): (bool, World)
  {
    if slug !in w.saved || w.saved[slug].path !in w.files || !a.readable then (false, w)
    else
      var e := w.saved[slug];
      var body := w.files[e.path];
      if e.document != 0 && !Edited(w, slug, digest) then (true, w)
      else if a.message == "" || (e.document == 0 && KindOfPath(e.path).None?) || a.pushed.None? || !a.saves then (false, w)
      else
        var saved := w.saved[slug := Entry(a.pushed.value.id, a.pushed.value.head, digest(body), e.path)];
        if !a.clean then (true, w.(saved := saved))
        else if !a.removes then (false, w.(saved := saved))
        else (a.savesAgain, w.(files := w.files - {e.path}, saved := if a.savesAgain then saved - {slug} else saved))
  }

  // ---- When they succeed ----

  /** An edit, or a file that cannot be checked for one, where something was pulled before: only
      force goes over it. */
  predicate EditGuarded(w: World, slug: string, digest: string -> string, a: PullAnswers)
  {
    && !a.force && slug in w.saved && w.saved[slug].digest != "" && w.saved[slug].path in w.files
    && (a.readable ==> digest(w.files[w.saved[slug].path]) != w.saved[slug].digest)
  }

  /** Everything up to the write is fine. */
  predicate CanFetch(w: World, slug: string, digest: string -> string, a: PullAnswers)
  {
    !EditGuarded(w, slug, digest, a) && a.remote.Some? && KindDir(a.remote.value.kind).Some? && ValidSlug(slug) && a.writes
  }

  /** The text was written at one path, which is the slug's own if a file was there. */
  ghost predicate WroteOnly(w: World, slug: string, body: string, w': World)
  {
    exists p :: WroteAt(w, slug, p, body, w')
  }

  predicate WroteAt(w: World, slug: string, p: string, body: string, w': World)
  {
    w' == w.(files := w.files[p := body]) && (p in w.files ==> slug in w.saved && w.saved[slug].path == p)
  }

  lemma PullPathIs(w: World, slug: string, r: Remote)
    ensures PullPath(w, slug, r).Some? <==> KindDir(r.kind).Some? && ValidSlug(slug)
    ensures var p := PullPath(w, slug, r);
            p.Some? && p.value in w.files ==> slug in w.saved && w.saved[slug].path == p.value
  {
    FreeMeansFree(w.saved, w.files, r.kind, r.createdAt, slug);
  }

  /** A pull succeeds exactly when no edit is guarded, the document is there, its kind and slug give a
      path, and the disk obeys; one that cannot save leaves the text it wrote, any other failure
      nothing. */
  lemma PullExactly(w: World, slug: string, digest: string -> string, a: PullAnswers)
    ensures var (ok, w') := PullFrom(w, slug, digest, a);
            && (ok <==> CanFetch(w, slug, digest, a) && a.saves)
            && (!CanFetch(w, slug, digest, a) ==> w' == w)
            && (CanFetch(w, slug, digest, a) && !a.saves ==> WroteOnly(w, slug, a.remote.value.body, w'))
  {
    if a.remote.Some? {
      PullPathIs(w, slug, a.remote.value);
      if CanFetch(w, slug, digest, a) && !a.saves {
        WritesOne(w, slug, digest, a, PullPath(w, slug, a.remote.value).value);
      }
    }
  }

  lemma WritesOne(w: World, slug: string, digest: string -> string, a: PullAnswers, p: string)
    requires CanFetch(w, slug, digest, a) && !a.saves && PullPath(w, slug, a.remote.value) == Some(p)
    requires p in w.files ==> slug in w.saved && w.saved[slug].path == p
    ensures WroteOnly(w, slug, a.remote.value.body, PullFrom(w, slug, digest, a).1)
  {
    assert WroteAt(w, slug, p, a.remote.value.body, PullFrom(w, slug, digest, a).1);
  }

  /** There is a file to push. */
  predicate HasCopy(w: World, slug: string, a: PushAnswers)
  {
    slug in w.saved && w.saved[slug].path in w.files && a.readable
  }

  /** It is what the server has. */
  predicate Unchanged(w: World, slug: string, digest: string -> string)
    requires slug in w.saved && w.saved[slug].path in w.files
  {
    w.saved[slug].document != 0 && digest(w.files[w.saved[slug].path]) == w.saved[slug].digest
  }

  /** A message, a known directory for a new document, the server's consent, and the entry saved. */
  ghost predicate CanCommit(w: World, slug: string, a: PushAnswers)
    requires slug in w.saved
  {
    && a.message != "" && a.pushed.Some? && a.saves
    && (w.saved[slug].document == 0 ==> exists kind :: KindDir(kind).Some? && InDir(w.saved[slug].path, KindDir(kind).value))
  }

  lemma KindKnown(path: string)
    ensures KindOfPath(path).Some? <==> exists kind :: KindDir(kind).Some? && InDir(path, KindDir(kind).value)
  {
    if KindOfPath(path).Some? {
      KindIsDir(path, KindOfPath(path).value);
    }
    if kind :| KindDir(kind).Some? && InDir(path, KindDir(kind).value) {
      KindIsDir(path, kind);
    }
  }

  /** A push succeeds exactly when there is a readable copy that is unchanged, or one that can be
      committed and, where that is asked for, cleaned away. What could not be committed leaves
      everything as it was. */
  lemma PushExactly(w: World, slug: string, digest: string -> string, a: PushAnswers)
    ensures var (ok, w') := PushTo(w, slug, digest, a);
            && (ok <==> HasCopy(w, slug, a)
                        && (Unchanged(w, slug, digest) || (CanCommit(w, slug, a) && (a.clean ==> a.removes && a.savesAgain))))
            && (!HasCopy(w, slug, a) || Unchanged(w, slug, digest) || !CanCommit(w, slug, a) ==> w' == w)
            && (HasCopy(w, slug, a) && !Unchanged(w, slug, digest) && CanCommit(w, slug, a) && !ok ==>
                  && a.clean && slug in w'.saved && w'.saved[slug].revision == a.pushed.value.head
                  && w'.files == if a.removes then w.files - {w.saved[slug].path} else w.files)
  {
    if slug in w.saved {
      KindKnown(w.saved[slug].path);
    }
  }

  /** The local copy is what the server's head was when last spoken to. */
  ghost predicate Settled(w: World, slug: string, digest: string -> string, head: nat)
  {
    && slug in w.saved && w.saved[slug].path in w.files
    && w.saved[slug].document != 0 && w.saved[slug].revision == head
    && !Edited(w, slug, digest)
  }

  /** A good push leaves the file as it was and the copy settled at the new head, or, when
      cleaning, neither file nor entry; other slugs and files never notice. */
  lemma PushSettles(w: World, slug: string, digest: string -> string, a: PushAnswers)
    requires a.pushed.Some? ==> a.pushed.value.id != 0
    ensures var (ok, w') := PushTo(w, slug, digest, a);
            && w'.slugs == w.slugs && w'.saved - {slug} == w.saved - {slug}
            && (forall p :: p in w'.files ==> p in w.files && w'.files[p] == w.files[p])
            && (forall p :: p in w.files && p !in w'.files ==> a.clean && slug in w.saved && w.saved[slug].path == p)
            && (ok && slug in w'.saved ==> && w'.files == w.files
                                           && Settled(w', slug, digest, w'.saved[slug].revision)
                                           && (w'.saved == w.saved
                                               || (a.pushed.Some? && w'.saved[slug].revision == a.pushed.value.head
                                                   && w'.saved[slug].document == a.pushed.value.id
                                                   && w'.saved[slug].path == w.saved[slug].path)))
            && (ok && slug !in w'.saved ==> && a.clean && a.pushed.Some? && slug in w.saved
                                            && w'.files == w.files - {w.saved[slug].path})
  {
    var (ok, w') := PushTo(w, slug, digest, a);
    assert w'.saved - {slug} == w.saved - {slug};
  }

  /** A settled copy has nothing to push and loses nothing in a pull: the one changes nothing, and
      the other is not refused for the local file. */
  lemma SettledIsQuiet(w: World, slug: string, digest: string -> string, head: nat, push: PushAnswers, pull: PullAnswers)
    requires Settled(w, slug, digest, head) && push.readable && pull.readable
    ensures PushTo(w, slug, digest, push) == (true, w)
    ensures PullFrom(w, slug, digest, pull) == PullFrom(w, slug, digest, pull.(force := true))
  {
  }

  /** A good pull leaves exactly the server's text, settled at its head, where the slug's file was
      or where nobody's was; a pull without force overwrites no edit. */
  lemma PullSettles(w: World, slug: string, digest: string -> string, a: PullAnswers)
    requires a.remote.Some? ==> a.remote.value.id != 0 && a.remote.value.digest == digest(a.remote.value.body)
    ensures var (ok, w') := PullFrom(w, slug, digest, a);
            && w'.slugs == w.slugs && w'.saved - {slug} == w.saved - {slug} && (!ok ==> w'.saved == w.saved)
            && (ok ==> && a.remote.Some? && Settled(w', slug, digest, a.remote.value.head)
                       && w'.saved[slug].document == a.remote.value.id
                       && w'.files[w'.saved[slug].path] == a.remote.value.body
                       && (slug in w.saved && w.saved[slug].path != "" ==> w'.saved[slug].path == w.saved[slug].path))
            && (forall p :: p in w.files ==> p in w'.files)
            && (forall p :: p in w.files && w'.files[p] != w.files[p] ==>
                  && slug in w.saved && w.saved[slug].path == p
                  && (a.force || w.saved[slug].digest == "" || !Edited(w, slug, digest)))
  {
    if a.remote.Some? {
      var r := a.remote.value;
      FreeMeansFree(w.saved, w.files, r.kind, r.createdAt, slug);
      assert PullFrom(w, slug, digest, a).1.saved - {slug} == w.saved - {slug};
    }
  }

  // ---- The commands ----

  class Tree {
    var files: Files
    var saved: State
    var slugs: map<nat, string>

    constructor ()
      ensures files == map[] && saved == map[] && slugs == map[] && Injective(saved)
    {
      files, saved, slugs := map[], map[], map[];
    }

    ghost function Now(): World
      reads this
    {
      World(files, saved, slugs)
    }

    /** docNew. The file it writes was nobody's, and the slug is new. */
    method New(kind: string, slug: string, createdAt: string, writes: bool, saves: bool) returns (ok: bool)
      requires Injective(saved)
      modifies this`files, this`saved
      ensures Injective(saved)
      ensures ok <==> FreePath(old(saved), old(files), kind, createdAt, slug).Some? && slug !in old(saved) && writes && saves
      ensures ok ==> var p := FreePath(old(saved), old(files), kind, createdAt, slug).value;
                     && p !in old(files) && files == old(files)[p := "# " + slug + "\n"]
                     && saved == old(saved)[slug := Entry(0, 0, "", p)]
      ensures !ok ==> saved == old(saved)
      ensures forall p :: p in old(files) ==> p in files && files[p] == old(files)[p]
    {
      FreeMeansFree(saved, files, kind, createdAt, slug);
      var rel := FindFreePath(saved, files, kind, createdAt, slug);
      if rel.None? || slug in saved || !writes {
        return false;
      }
      var was := files;
      files := files[rel.value := "# " + slug + "\n"];
      if !saves {
        return false;
      }
      SetInjective(saved, was, slug, Entry(0, 0, "", rel.value));
      saved := saved[slug := Entry(0, 0, "", rel.value)];
      return true;
    }

    /** docPull. `readable` says an existing file could be read. */
    method Pull(slug: string, digest: string -> string, a: PullAnswers) returns (ok: bool)
      requires Injective(saved)
      modifies this`files, this`saved
      ensures Injective(saved)
      ensures (ok, Now()) == PullFrom(old(Now()), slug, digest, a)
      ensures ok <==> CanFetch(old(Now()), slug, digest, a) && a.saves
    {
      PullExactly(Now(), slug, digest, a);
      if slug in saved && saved[slug].digest != "" && !a.force {
        var p := saved[slug].path;
        if p in files && (!a.readable || digest(files[p]) != saved[slug].digest) {
          return false;
        }
      }
      if a.remote.None? {
        return false;
      }
      var r := a.remote.value;
      var free := FindFreePath(saved, files, r.kind, r.createdAt, slug);
      if free.None? {
        return false;
      }
      var rel := free.value;
      if slug in saved && saved[slug].path != "" {
        rel := saved[slug].path;
      }
      if !a.writes {
        return false;
      }
      var was := files;
      files := files[rel := r.body];
      if !a.saves {
        return false;
      }
      SetInjective(saved, was, slug, Entry(r.id, r.head, r.digest, rel));
      saved := saved[slug := Entry(r.id, r.head, r.digest, rel)];
      return true;
    }

    /** docPush */
    method Push(slug: string, digest: string -> string, a: PushAnswers) returns (ok: bool)
      requires Injective(saved)
      modifies this`files, this`saved
      ensures Injective(saved)
      ensures (ok, Now()) == PushTo(old(Now()), slug, digest, a)
      ensures ok <==> HasCopy(old(Now()), slug, a) && (Unchanged(old(Now()), slug, digest)
                      || (CanCommit(old(Now()), slug, a) && (a.clean ==> a.removes && a.savesAgain)))
    {
      PushExactly(Now(), slug, digest, a);
      if slug !in saved || saved[slug].path !in files || !a.readable {
        return false;
      }
      var e := saved[slug];
      var body := files[e.path];
      if e.document != 0 && digest(body) == e.digest {
        return true;
      }
      if a.message == "" {
        return false;
      }
      if e.document == 0 && KindOfPath(e.path).None? {
        return false;
      }
      if a.pushed.None? {
        return false;
      }
      e := e.(document := a.pushed.value.id, revision := a.pushed.value.head, digest := digest(body));
      var next := saved[slug := e];
      if !a.saves {
        return false;
      }
      SetInjective(saved, files, slug, e);
      saved := next;
      if a.clean {
        if !a.removes {
          return false;
        }
        files := files - {e.path};
        if !a.savesAgain {
          return false;
        }
        saved := saved - {slug};
      }
      return true;
    }

    /** docMove */
    method MoveTo(slug: string, newSlug: string, a: MoveAnswers) returns (ok: bool)
      requires Injective(saved)
      modifies this
      ensures Injective(saved)
      ensures !ValidSlug(newSlug) || newSlug in old(saved) ==> !ok && Now() == old(Now())
      ensures ValidSlug(newSlug) && newSlug !in old(saved) && slug !in old(saved) ==>
                && files == old(files) && saved == old(saved)
                && (a.found.None? ==> !ok && slugs == old(slugs))
                && (a.found.Some? ==> ok == a.patch.reported && slugs == Rename(old(slugs), a.found.value.id, newSlug, a.patch))
      ensures ValidSlug(newSlug) && newSlug !in old(saved) && slug in old(saved) ==>
                var plan := PlanOf(old(saved), old(files), slug, newSlug, a);
                if plan.None? then !ok && Now() == old(Now())
                else (ok, Now()) == MoveLocal(old(Now()), slug, newSlug, plan.value.0, plan.value.1, a)
                     && (ok <==> CanMove(old(Now()), slug, plan.value.0, plan.value.1, a))
    {
      if slug in saved && PlanOf(saved, files, slug, newSlug, a).Some? {
        var plan := PlanOf(saved, files, slug, newSlug, a).value;
        MoveExactly(Now(), slug, newSlug, plan.0, plan.1, a);
      }
      if !ValidSlug(newSlug) || newSlug in saved {
        return false;
      }
      var local := slug in saved;
      if local && saved[slug].document == 0 {
        var kind := KindOfPath(saved[slug].path);
        if kind.None? {
          return false;
        }
        ok := MoveIt(slug, newSlug, kind.value, Day(BaseOf(saved[slug].path)), 0, a);
      } else {
        if a.found.None? {
          return false;
        }
        if local {
          ok := MoveIt(slug, newSlug, a.found.value.kind, a.found.value.createdAt, a.found.value.id, a);
        } else {
          slugs := Rename(slugs, a.found.value.id, newSlug, a.patch);
          ok := a.patch.reported;
        }
      }
    }

    /** The steps of a local rename. */
    method MoveIt(slug: string, newSlug: string, kind: string, createdAt: string, id: nat, a: MoveAnswers) returns (ok: bool)
      requires Injective(saved) && slug in saved && newSlug !in saved
      modifies this
      ensures Injective(saved)
      ensures (ok, Now()) == MoveLocal(old(Now()), slug, newSlug, TargetOf(old(saved), old(files), kind, createdAt, newSlug), id, a)
    {
      var free := FindFreePath(saved, files, kind, createdAt, newSlug);
      var newPath := if free.Some? then free.value else "";
      var e := saved[slug];
      var oldPath := e.path;
      var was := files;
      var moved := false;
      moved, files := Move(files, oldPath, newPath, a.moves).0, Move(files, oldPath, newPath, a.moves).1;
      if !moved {
        return false;
      }
      if id != 0 {
        slugs := Rename(slugs, id, newSlug, a.patch);
        if !a.patch.reported {
          files := Move(files, newPath, oldPath, a.movesBack).1;
          return false;
        }
      }
      if !a.saves {
        if id != 0 {
          slugs := Rename(slugs, id, slug, a.unpatch);
        }
        files := Move(files, newPath, oldPath, a.movesBack).1;
        return false;
      }
      RenamedInjective(saved, was, slug, newSlug, newPath);
      saved := (saved - {slug})[newSlug := e.(path := newPath)];
      return true;
    }
  }
}
