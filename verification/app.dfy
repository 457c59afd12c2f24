/**
 * The route table and its two guards. A guarded page waits while the
 * session is being restored, then either renders or redirects: private
 * pages send a signed-out visitor to the login page, and the sign-in pages
 * send a signed-in one to the notes list.
 */
module App {
  import opened Wrappers
  import NoteEditor

  /**
   * The paths of the route table; the two parameterised ones carry their
   * parameter, and a URL no route matches is kept as it is.
   */
  datatype Path =
    | Root | Login | Signup | ForgotPassword | ResetPassword | VerifyEmail | AuthCallback
    | Dashboard | Notes | NewNote | EditNote(id: string) | PublicNote(shareId: string) | Labels
    | Unmatched(url: string)

  /**
   * What a path shows: its own page, the loading placeholder, a redirect, or
   * nothing at all when no route matches.
   */
  datatype View = Page(path: Path) | LoadingPlaceholder | Redirect(to: Path) | Blank

  /** A dynamic segment's value: non-empty and without a slash. */
  predicate Segment(s: string) {
    s != "" && '/' !in s
  }

  /** The URL of a matched path. */
  function Url(p: Path): (url: string)
    requires !p.Unmatched?
    ensures url != "" && url[0] == '/'
  {
    match p
    case Root => "/"
    case Login => "/login"
    case Signup => "/signup"
    case ForgotPassword => "/forgot-password"
    case ResetPassword => "/reset-password"
    case VerifyEmail => "/verify-email"
    case AuthCallback => "/auth/callback"
    case Dashboard => "/dashboard"
    case Notes => "/notes"
    case NewNote => "/notes/new"
    case EditNote(id) => "/notes/" + id + "/edit"
    case PublicNote(shareId) => "/public/" + shareId
    case Labels => "/labels"
  }

  /** ASCII capital letters become small letters; every other character is kept. */
  function Lower(c: char): (d: char)
    ensures 'A' <= c <= 'Z' ==> 'a' <= d <= 'z' && d as int == c as int + 32
    ensures !('A' <= c <= 'Z') ==> d == c
  {
    if 'A' <= c <= 'Z' then (c as int + 32) as char else c
  }

  /**
   * The string with its ASCII letters in lower case. The router compares the
   * route table's own text, which is lower-case ASCII, without regard to
   * case.
   */
  function Fold(s: string): (r: string)
    ensures |r| == |s|
    ensures forall i :: 0 <= i < |s| ==> r[i] == Lower(s[i])
  {
    seq(|s|, i requires 0 <= i < |s| => Lower(s[i]))
  }

  lemma FoldAppend(a: string, b: string)
    ensures Fold(a + b) == Fold(a) + Fold(b)
  {
    assert forall i :: 0 <= i < |a + b| ==> Fold(a + b)[i] == (Fold(a) + Fold(b))[i];
  }

  /** Folding twice is folding once. */
  lemma FoldIdempotent(s: string)
    ensures Fold(Fold(s)) == Fold(s)
  {
    assert forall i :: 0 <= i < |s| ==> Fold(Fold(s))[i] == Fold(s)[i];
  }

  /** A string without capital ASCII letters is its own fold. */
  lemma FoldLowerFixed(s: string)
    requires forall i :: 0 <= i < |s| ==> !('A' <= s[i] <= 'Z')
    ensures Fold(s) == s
  {
    assert forall i :: 0 <= i < |s| ==> Fold(s)[i] == s[i];
  }

  /** The path without its trailing slashes, which the router ignores. */
  function TrimSlashes(s: string): (r: string)
    ensures |r| <= |s| && r == s[..|r|]
    ensures r == [] || r[|r| - 1] != '/'
    ensures forall i :: |r| <= i < |s| ==> s[i] == '/'
    decreases |s|
  {
    if s != [] && s[|s| - 1] == '/' then TrimSlashes(s[..|s| - 1]) else s
  }

  /** A path that does not end in a slash has none to trim. */
  lemma TrimSlashesNone(s: string)
    requires s != [] && s[|s| - 1] != '/'
    ensures TrimSlashes(s) == s
  {
  }

  /**
   * The routes without a parameter, by the folded path with its trailing
   * slashes trimmed (the root's path is then empty).
   */
  function StaticRoute(key: string): (p: Option<Path>)
    ensures p.Some? ==> !p.value.Unmatched? && !p.value.EditNote? && !p.value.PublicNote?
    ensures p.Some? ==> TrimSlashes(Url(p.value)) == key
  {
    if key == "" then Some(Root)
    else if key == "/login" then Some(Login)
    else if key == "/signup" then Some(Signup)
    else if key == "/forgot-password" then Some(ForgotPassword)
    else if key == "/reset-password" then Some(ResetPassword)
    else if key == "/verify-email" then Some(VerifyEmail)
    else if key == "/auth/callback" then Some(AuthCallback)
    else if key == "/dashboard" then Some(Dashboard)
    else if key == "/notes" then Some(Notes)
    else if key == "/notes/new" then Some(NewNote)
    else if key == "/labels" then Some(Labels)
    else None
  }

  /**
   * The route a URL path matches, as the router matches it: trailing slashes
   * are ignored and the route's own text is compared without regard to ASCII
   * case, while a parameter is kept as written and is one non-empty segment.
   * The static routes win over the parameterised ones, so `/notes/new` is
   * not an edit page. A matched path agrees with its route's URL up to case
   * and trailing slashes.
   */
  function Resolve(url: string): (p: Path)
    ensures p.Unmatched? ==> p.url == url
    ensures !p.Unmatched? ==> Fold(TrimSlashes(Url(p))) == Fold(TrimSlashes(url))
    ensures p.EditNote? ==> Segment(p.id)
    ensures p.EditNote? ==> var base := TrimSlashes(url); |base| == |p.id| + 12 && base[7..|p.id| + 7] == p.id
    ensures p.PublicNote? ==> Segment(p.shareId)
    ensures p.PublicNote? ==> var base := TrimSlashes(url); |base| == |p.shareId| + 8 && base[8..] == p.shareId
  {
    var base := TrimSlashes(url);
    var key := Fold(base);
    var fixed := StaticRoute(key);
    if fixed.Some? then
      FoldIdempotent(base);
      fixed.value
    else if |base| > 8 && key[..8] == "/public/" && Segment(base[8..]) then
      PublicNoteFolds(base);
      PublicNote(base[8..])
    else if |base| > 12 && key[..7] == "/notes/" && key[|base| - 5..] == "/edit" && Segment(base[7..|base| - 5]) then
      EditNoteFolds(base);
      EditNote(base[7..|base| - 5])
    else Unmatched(url)
  }

  /** A path read as a shared note agrees with that note's URL up to case. */
  lemma PublicNoteFolds(base: string)
    requires |base| > 8 && Fold(base)[..8] == "/public/" && Segment(base[8..])
    ensures Fold(TrimSlashes(Url(PublicNote(base[8..])))) == Fold(base)
  {
    var id := base[8..];
    PublicKey(id);
    FoldAppend("/public/", id);
    FoldLowerFixed("/public/");
    FoldSlice(base, 8, |base|);
    assert Fold(base) == Fold(base)[..8] + Fold(base)[8..];
  }

  /** A path read as an edit page agrees with that page's URL up to case. */
  lemma EditNoteFolds(base: string)
    requires |base| > 12 && Fold(base)[..7] == "/notes/" && Fold(base)[|base| - 5..] == "/edit"
    requires Segment(base[7..|base| - 5])
    ensures Fold(TrimSlashes(Url(EditNote(base[7..|base| - 5])))) == Fold(base)
  {
    var id := base[7..|base| - 5];
    EditUrlFolds(id);
    FoldSlice(base, 7, |base| - 5);
    var f := Fold(base);
    assert f == f[..7] + f[7..|base| - 5] + f[|base| - 5..];
  }

  /** The URL of an edit page has no trailing slash and folds to its lower-case text around the folded id. */
  lemma EditUrlFolds(id: string)
    requires Segment(id)
    ensures TrimSlashes(Url(EditNote(id))) == Url(EditNote(id))
    ensures Fold(Url(EditNote(id))) == "/notes/" + Fold(id) + "/edit"
  {
    var prefix, suffix := "/notes/", "/edit";
    TrimSlashesNone(prefix + id + suffix);
    FoldAppend(prefix + id, suffix);
    FoldAppend(prefix, id);
    FoldLowerFixed(prefix);
    FoldLowerFixed(suffix);
  }

  /** Folding commutes with taking a slice. */
  lemma FoldSlice(s: string, i: int, j: int)
    requires 0 <= i <= j <= |s|
    ensures Fold(s[i..j]) == Fold(s)[i..j]
  {
  }

  /** A key under `/notes/` other than `/notes/new` is none of the static routes. */
  lemma NotesChildNotStatic(key: string)
    requires |key| > 7 && key[..7] == "/notes/" && key != "/notes/new"
    ensures StaticRoute(key) == None
  {
    assert key[1] == 'n';
  }

  /** A key whose second character is `p` or `n`, and that is long enough, is none of the static routes. */
  lemma ParameterisedNotStatic(key: string)
    requires |key| > 10 && (key[1] == 'p' || key[1] == 'n')
    ensures StaticRoute(key) == None
  {
  }

  /** The pages wrapped in the private guard. */
  predicate IsPrivate(p: Path) {
    p.Dashboard? || p.Notes? || p.NewNote? || p.EditNote? || p.Labels?
  }

  /** The pages wrapped in the signed-out-only guard. */
  predicate IsPublicOnly(p: Path) {
    p.Login? || p.Signup? || p.ForgotPassword?
  }

  /** The private guard around page `p`. */
  function ProtectedRoute(p: Path, loading: bool, authenticated: bool): (v: View)
    ensures loading ==> v == LoadingPlaceholder
    ensures !loading ==> (v == Page(p) <==> authenticated)
    ensures !loading && !authenticated ==> v == Redirect(Login)
  {
    if loading then LoadingPlaceholder
    else if authenticated then Page(p) else Redirect(Login)
  }

  /** The signed-out-only guard around page `p`. */
  function PublicRoute(p: Path, loading: bool, authenticated: bool): (v: View)
    ensures loading ==> v == LoadingPlaceholder
    ensures !loading ==> (v == Page(p) <==> !authenticated)
    ensures !loading && authenticated ==> v == Redirect(Notes)
  {
    if loading then LoadingPlaceholder
    else if !authenticated then Page(p) else Redirect(Notes)
  }

  /** What the route table shows at `p` for the session state. */
  function Route(p: Path, loading: bool, authenticated: bool): (v: View)
    ensures p.Root? ==> v == Redirect(Notes)
    ensures IsPrivate(p) ==> v == ProtectedRoute(p, loading, authenticated)
    ensures IsPublicOnly(p) ==> v == PublicRoute(p, loading, authenticated)
    ensures p.Unmatched? ==> v == Blank
    ensures !p.Root? && !p.Unmatched? && !IsPrivate(p) && !IsPublicOnly(p) ==> v == Page(p)
  {
    if p.Root? then Redirect(Notes)
    else if p.Unmatched? then Blank
    else if IsPrivate(p) then ProtectedRoute(p, loading, authenticated)
    else if IsPublicOnly(p) then PublicRoute(p, loading, authenticated)
    else Page(p)
  }

  /** The view reached by following at most `hops` redirects from `p`. */
  function Follow(p: Path, loading: bool, authenticated: bool, hops: nat): View
    decreases hops
  {
    var v := Route(p, loading, authenticated);
    if v.Redirect? && hops > 0 then Follow(v.to, loading, authenticated, hops - 1) else v
  }

  /**
   * Redirects never loop: once the session is restored, every matched path
   * ends on a page within two redirects (the root goes to the notes list,
   * which a signed-out visitor leaves for the login page), and that page is
   * one the visitor may see; an unmatched URL shows nothing.
   */
  lemma {:induction false} RedirectsSettle(p: Path, authenticated: bool)
    ensures var v := Follow(p, false, authenticated, 2);
      && (v.Page? || v.Blank?)
      && (v.Blank? <==> p.Unmatched?)
    ensures var v := Follow(p, false, authenticated, 2);
      v.Page? ==> (IsPrivate(v.path) ==> authenticated) && (IsPublicOnly(v.path) ==> !authenticated)
  {
    var v := Route(p, false, authenticated);
    if v.Redirect? {
      var w := Route(v.to, false, authenticated);
      if w.Redirect? {
        assert Follow(w.to, false, authenticated, 0) == Route(w.to, false, authenticated);
      }
    }
  }

  /** While the session is being restored, every guarded path shows only the placeholder. */
  lemma GuardsWaitWhileLoading(p: Path, authenticated: bool)
    requires IsPrivate(p) || IsPublicOnly(p)
    ensures Route(p, true, authenticated) == LoadingPlaceholder
  {
  }

  /** Every matched path is found again from its URL. */
  lemma ResolveUrl(p: Path)
    requires !p.Unmatched?
    requires p.EditNote? ==> Segment(p.id)
    requires p.PublicNote? ==> Segment(p.shareId)
    ensures Resolve(Url(p)) == p
  {
    match p
    case EditNote(id) => EditNoteUrl(id);
    case PublicNote(shareId) => PublicNoteUrl(shareId);
    case _ => StaticRouteUrl(p);
  }

  /**
   * A route without a parameter is found from any path that agrees with its
   * URL up to ASCII case and trailing slashes: `/NOTES/` opens the list.
   */
  lemma ResolveIgnoresCaseAndTrailingSlashes(p: Path, url: string)
    requires !p.Unmatched? && !p.EditNote? && !p.PublicNote?
    requires Fold(TrimSlashes(url)) == TrimSlashes(Url(p))
    ensures Resolve(url) == p
  {
    StaticRouteUrl(p);
  }

  /**
   * An edit page is found from any path whose fixed text is `/notes/` and
   * `/edit` in any ASCII case around a one-segment id, with any trailing
   * slashes: `/Notes/abc/EDIT/` opens the edit page of `abc`.
   */
  lemma EditNoteResolves(a: string, id: string, b: string, url: string)
    requires Fold(a) == "/notes/" && Fold(b) == "/edit" && Segment(id)
    requires TrimSlashes(url) == a + id + b
    ensures Resolve(url) == EditNote(id)
  {
    EditBranch(a, id, b);
  }

  /** The path of an edit page read off a URL passes the edit-page test of Resolve and no test before it. */
  lemma EditBranch(a: string, id: string, b: string)
    requires Fold(a) == "/notes/" && Fold(b) == "/edit" && Segment(id)
    ensures var base := a + id + b; var key := Fold(base);
      && StaticRoute(key) == None && key[..8] != "/public/"
      && |base| > 12 && key[..7] == "/notes/" && key[|base| - 5..] == "/edit" && base[7..|base| - 5] == id
  {
    var base := a + id + b;
    var key := Fold(base);
    EditKeyFolds(a, id, b);
    ParameterisedNotStatic(key);
    assert key[..8] != "/public/" by { assert key[1] == 'n'; }
    assert base[7..|base| - 5] == id;
  }

  /** The folded path of an edit page read off a URL, with its fixed text in place. */
  lemma EditKeyFolds(a: string, id: string, b: string)
    requires Fold(a) == "/notes/" && Fold(b) == "/edit"
    ensures var key := Fold(a + id + b);
      && |key| == |id| + 12 && key[..7] == "/notes/" && key[|key| - 5..] == "/edit" && key[1] == 'n'
  {
    FoldAppend(a + id, b);
    FoldAppend(a, id);
    var key := Fold(a + id + b);
    assert key == "/notes/" + Fold(id) + "/edit";
  }

  /**
   * A shared note is found from any path whose fixed text is `/public/` in
   * any ASCII case before a one-segment id, with any trailing slashes:
   * `/PUBLIC/x/` opens the shared note `x`.
   */
  lemma PublicNoteResolves(a: string, shareId: string, url: string)
    requires Fold(a) == "/public/" && Segment(shareId)
    requires TrimSlashes(url) == a + shareId
    ensures Resolve(url) == PublicNote(shareId)
  {
    var base := a + shareId;
    var key := Fold(base);
    PublicKeyFolds(a, shareId);
    SecondCharNotStatic(key);
    assert base[8..] == shareId;
  }

  /** The folded path of a shared note read off a URL, with its fixed text in place. */
  lemma PublicKeyFolds(a: string, shareId: string)
    requires Fold(a) == "/public/"
    ensures var key := Fold(a + shareId);
      && |key| == |shareId| + 8 && key[..8] == "/public/" && key[1] == 'p'
  {
    FoldAppend(a, shareId);
  }

  /** A route without a parameter is found among the static routes by its own trimmed URL. */
  lemma StaticRouteUrl(p: Path)
    requires !p.Unmatched? && !p.EditNote? && !p.PublicNote?
    ensures StaticRoute(TrimSlashes(Url(p))) == Some(p)
    ensures Fold(TrimSlashes(Url(p))) == TrimSlashes(Url(p))
  {
    var key := StaticKey(p);
    StaticKeyTrims(p);
    FoldLowerFixed(key);
  }

  /** The trimmed URL of a route without a parameter, written out: lower-case ASCII. */
  function StaticKey(p: Path): (key: string)
    requires !p.Unmatched? && !p.EditNote? && !p.PublicNote?
    ensures forall i :: 0 <= i < |key| ==> !('A' <= key[i] <= 'Z')
    ensures StaticRoute(key) == Some(p)
  {
    match p
    case Root => ""
    case Login => "/login"
    case Signup => "/signup"
    case ForgotPassword => "/forgot-password"
    case ResetPassword => "/reset-password"
    case VerifyEmail => "/verify-email"
    case AuthCallback => "/auth/callback"
    case Dashboard => "/dashboard"
    case Notes => "/notes"
    case NewNote => "/notes/new"
    case Labels => "/labels"
  }

  lemma StaticKeyTrims(p: Path)
    requires !p.Unmatched? && !p.EditNote? && !p.PublicNote?
    ensures TrimSlashes(Url(p)) == StaticKey(p)
  {
    if !p.Root? {
      TrimSlashesNone(Url(p));
    }
  }

  /** An edit page is found again from its URL. */
  lemma EditNoteUrl(id: string)
    requires Segment(id)
    ensures Resolve(Url(EditNote(id))) == EditNote(id)
  {
    var url := Url(EditNote(id));
    EditKey(id);
    var key := Fold(url);
    ParameterisedNotStatic(key);
    assert key[..8] != "/public/" by { assert key[..8][1] == 'n'; }
  }

  /** The folded, trimmed URL of an edit page keeps `/notes/`, the id and `/edit`. */
  lemma EditKey(id: string)
    requires Segment(id)
    ensures var url := Url(EditNote(id));
      && TrimSlashes(url) == url && |url| > 12 && url[7..|url| - 5] == id
      && Fold(url)[..7] == "/notes/" && Fold(url)[|url| - 5..] == "/edit" && Fold(url)[1] == 'n'
  {
    var url := Url(EditNote(id));
    TrimSlashesNone(url);
    var prefix, suffix := "/notes/", "/edit";
    FoldLowerFixed(prefix);
    FoldLowerFixed(suffix);
    FoldAppend(prefix + id, suffix);
    FoldAppend(prefix, id);
  }

  /** A shared note is found again from its URL. */
  lemma PublicNoteUrl(shareId: string)
    requires Segment(shareId)
    ensures Resolve(Url(PublicNote(shareId))) == PublicNote(shareId)
  {
    var url := Url(PublicNote(shareId));
    PublicKey(shareId);
    SecondCharNotStatic(Fold(url));
  }

  /** The folded, trimmed URL of a shared note keeps the `/public/` prefix and the id. */
  lemma PublicKey(shareId: string)
    requires Segment(shareId)
    ensures var url := Url(PublicNote(shareId));
      && TrimSlashes(url) == url && |url| > 8 && url[8..] == shareId
      && Fold(url)[..8] == "/public/" && Fold(url)[1] == 'p'
  {
    var url := Url(PublicNote(shareId));
    TrimSlashesNone(url);
    FoldAppend("/public/", shareId);
    FoldLowerFixed("/public/");
  }

  /** A key whose second character is `p` is none of the static routes. */
  lemma SecondCharNotStatic(key: string)
    requires |key| > 1 && key[1] == 'p'
    ensures StaticRoute(key) == None
  {
  }

  /**
   * The link on a note card's title, `/notes/<id>`, matches no route for any
   * note id that is not "new" in some mix of case: following it shows
   * nothing, signed in or not.
   */
  lemma TitleLinkMatchesNothing(id: string, authenticated: bool)
    requires Segment(id) && Fold(id) != "new"
    ensures Resolve("/notes/" + id) == Unmatched("/notes/" + id)
    ensures Follow(Resolve("/notes/" + id), false, authenticated, 2) == Blank
  {
    var url := "/notes/" + id;
    NotesChildTrim(id);
    NotesChildFold(id);
    var key := Fold(url);
    NotesChildNotStatic(key);
    if |key| > 8 {
      NotesChildNotPublic(key);
    }
    if |url| > 12 {
      NotesChildNotEdit(id, key);
    }
  }

  /** A key that starts with `/notes/` does not start with `/public/`. */
  lemma NotesChildNotPublic(key: string)
    requires |key| > 8 && key[..7] == "/notes/"
    ensures key[..8] != "/public/"
  {
    assert key[1] == 'n';
  }

  /** The folded title link of a one-segment id does not end in `/edit`. */
  lemma NotesChildNotEdit(id: string, key: string)
    requires Segment(id) && key == "/notes/" + Fold(id) && |key| > 12
    ensures key[|key| - 5..] != "/edit"
  {
    assert key[|key| - 5..][0] == key[|key| - 5] == Lower(id[|id| - 5]) != '/';
  }

  /** The path `/notes/<id>` has no trailing slash when the id does not end in one. */
  lemma NotesChildTrim(id: string)
    requires id != [] && id[|id| - 1] != '/'
    ensures TrimSlashes("/notes/" + id) == "/notes/" + id
  {
    var url := "/notes/" + id;
    assert url[|url| - 1] == id[|id| - 1];
    TrimSlashesNone(url);
  }

  /** The folded path `/notes/<id>` is `/notes/` followed by the folded id. */
  lemma NotesChildFold(id: string)
    ensures Fold("/notes/" + id) == "/notes/" + Fold(id)
  {
    var prefix := "/notes/";
    FoldLowerFixed(prefix);
    FoldAppend(prefix, id);
  }


  /** The title link of a note whose id is "new" in any mix of case opens the new-note editor. */
  lemma TitleLinkNewOpensEditor(id: string)
    requires Fold(id) == "new"
    ensures Resolve("/notes/" + id) == NewNote
  {
    assert id[|id| - 1] == id[2] && Lower(id[2]) == 'w';
    NotesChildTrim(id);
    NotesChildFold(id);
  }

  /** The editor's route after creating a note opens that note's edit page. */
  lemma EditRouteResolves(id: string)
    requires Segment(id)
    ensures Resolve(NoteEditor.EditRoute(id)) == EditNote(id)
  {
    ResolveUrl(EditNote(id));
  }
}
