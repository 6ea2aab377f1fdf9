/**
 * The full path a folder candidate is stored under: its parent path and its
 * own identifier joined with slashes, with surplus slashes trimmed,
 * `"/" + ("/" + parent.strip("/") + "/" + id).strip("/")`.
 */
module FolderPath {
  import opened PyStr

  /** No slash at either end (the empty string qualifies). */
  predicate Unpadded(s: string) {
    s == [] || (s[0] != '/' && s[|s| - 1] != '/')
  }

  /**
   * The composed path is absolute, does not start with two slashes and has
   * no trailing slash unless it is the root `/` itself.
   */
  function ComposePath(parent: string, id: string): (r: string)
    ensures |r| >= 1 && r[0] == '/'
    ensures r == "/" || (r[1] != '/' && r[|r| - 1] != '/')
  {
    var p := Strip(parent, IsSlash);
    "/" + Strip("/" + p + "/" + id, IsSlash)
  }

  /** Under the root (an empty parent or one made only of slashes) the path is `/id`. */
  lemma RootParent(parent: string, id: string)
    requires forall i | 0 <= i < |parent| :: IsSlash(parent[i])
    requires Unpadded(id)
    ensures ComposePath(parent, id) == "/" + id
  {
    assert Strip(parent, IsSlash) == [];
    assert "/" + [] + "/" + id == "//" + id + [];
    StripPadded("//", id, [], IsSlash);
  }

  /** Under any other parent the path is `/` + stripped parent + `/` + id. */
  lemma NestedParent(parent: string, id: string)
    requires Strip(parent, IsSlash) != []
    requires id != [] && Unpadded(id)
    ensures ComposePath(parent, id) == "/" + Strip(parent, IsSlash) + "/" + id
  {
    var p := Strip(parent, IsSlash);
    var core := p + "/" + id;
    assert core[0] == p[0] && core[|core| - 1] == id[|id| - 1];
    assert "/" + p + "/" + id == "/" + core + [];
    StripPadded("/", core, [], IsSlash);
  }

  /** An empty identifier adds nothing: the path is the stripped parent's. */
  lemma EmptyId(parent: string)
    ensures ComposePath(parent, "") == "/" + Strip(parent, IsSlash)
  {
    var p := Strip(parent, IsSlash);
    assert "/" + p + "/" + "" == "/" + p + "/";
    StripPadded("/", p, "/", IsSlash);
  }

  /** Slashes around the parent path do not matter. */
  lemma ParentNormalised(parent: string, id: string)
    ensures ComposePath(Strip(parent, IsSlash), id) == ComposePath(parent, id)
  {
    StripIdempotent(parent, IsSlash);
  }

  /** A top-level folder `f1` listed with parent path `/` is stored under `/f1`. */
  lemma TopLevelFolder()
    ensures ComposePath("/", "f1") == "/f1"
  {
    RootParent("/", "f1");
  }
}
