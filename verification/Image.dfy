/** Installer-image derivation: the tag is swapped, the repository and schematic are kept. */
module Image {
  const DEFAULT_INSTALLER := "ghcr.io/siderolabs/installer"

  /** Index of the last occurrence of `c`, or -1. */
  function LastIndex(s: string, c: char): (i: int)
    ensures -1 <= i < |s|
    ensures i >= 0 ==> s[i] == c
    ensures forall j :: i < j < |s| ==> s[j] != c
  {
    if s == [] then -1
    else if s[|s| - 1] == c then |s| - 1
    else
      var i := LastIndex(s[..|s| - 1], c);
      assert forall j :: i < j < |s| - 1 ==> s[j] == s[..|s| - 1][j];
      i
  }

  /** The image without its tag: a colon followed by a slash is a registry port, not a tag. */
  function Repository(image: string): string
  {
    var i := LastIndex(image, ':');
    if i >= 0 && '/' !in image[i + 1..] then image[..i] else image
  }

  function DeriveInstallerImage(current: string, target: string): string
  {
    if current == "" then DEFAULT_INSTALLER + ":" + target
    else
      var i := LastIndex(current, ':');
      if i >= 0 && '/' !in current[i + 1..] then current[..i] + ":" + target else current + ":" + target
  }

  predicate IsTag(t: string)
  {
    ':' !in t && '/' !in t
  }

  lemma LastAtLeast(s: string, c: char, k: nat)
    requires k < |s| && s[k] == c
    ensures LastIndex(s, c) >= k
  {
  }

  /** The last colon of `s` is the one in front of `t`, unless `t` has one. */
  lemma LastBefore(s: string, n: nat, t: string)
    requires n < |s| && s[n] == ':' && s[n + 1..] == t
    ensures var i := LastIndex(s, ':'); i >= n && (i == n <==> ':' !in t)
  {
    LastAtLeast(s, ':', n);
    if ':' in t {
      var j :| 0 <= j < |t| && t[j] == ':';
      assert s[n + 1..][j] == s[n + 1 + j];
      LastAtLeast(s, ':', n + 1 + j);
    }
    var i := LastIndex(s, ':');
    if i > n { assert s[n + 1..][i - n - 1] == s[i]; }
  }

  lemma TaggedSuffix(base: string, t: string)
    ensures (base + ":" + t)[|base| + 1..] == t && (base + ":" + t)[..|base|] == base
  {
  }

  /** Taking the tag off again gives the repository back exactly when the tag has neither colon nor slash. */
  lemma RepositoryOfTagged(base: string, t: string)
    ensures Repository(base + ":" + t) == base <==> IsTag(t)
  {
    var s := base + ":" + t;
    TaggedSuffix(base, t);
    LastBefore(s, |base|, t);
    assert |s[..LastIndex(s, ':')]| == LastIndex(s, ':') && |s| > |base|;
  }

  /** What is kept of the current image: its repository, or the default one. */
  function Kept(current: string): string
  {
    if current == "" then DEFAULT_INSTALLER else Repository(current)
  }

  lemma Derived(current: string, target: string)
    ensures DeriveInstallerImage(current, target) == Kept(current) + ":" + target
  {
  }

  /**
   * For every current image and every target: the derived image is the kept repository and the target, and
   * reads back as that repository if and only if the target is a tag.
   */
  lemma RepositoryKeptIff(current: string, target: string)
    ensures DeriveInstallerImage(current, target) == Kept(current) + ":" + target
    ensures Repository(DeriveInstallerImage(current, target)) == Kept(current) <==> IsTag(target)
  {
    Derived(current, target);
    RepositoryOfTagged(Kept(current), target);
  }

  /** A colon with no slash after it starts a tag. */
  predicate Tagged(image: string)
  {
    exists i :: 0 <= i < |image| && image[i] == ':' && '/' !in image[i + 1..]
  }

  /**
   * The three kinds of current image: with a tag the tag is replaced, whatever the repository in front of it holds;
   * without one the target is added; and with no image at all the default installer is used.
   */
  lemma ImageCases(repo: string, tag: string, image: string, target: string)
    ensures IsTag(tag) ==> DeriveInstallerImage(repo + ":" + tag, target) == repo + ":" + target
    ensures image != "" && !Tagged(image) ==> DeriveInstallerImage(image, target) == image + ":" + target
    ensures DeriveInstallerImage("", target) == "ghcr.io/siderolabs/installer:" + target
  {
    RepositoryOfTagged(repo, tag);
    assert "ghcr.io/siderolabs/installer" + ":" == "ghcr.io/siderolabs/installer:";
  }

  /** Upgrading through an intermediate version lands on the same image as upgrading directly if and only if that version is a tag. */
  lemma LastTagWinsIff(current: string, via: string, target: string)
    ensures DeriveInstallerImage(DeriveInstallerImage(current, via), target) == DeriveInstallerImage(current, target) <==> IsTag(via)
  {
    var mid := DeriveInstallerImage(current, via);
    Derived(current, via);
    Derived(mid, target);
    Derived(current, target);
    RepositoryOfTagged(Kept(current), via);
    SameTag(Repository(mid), Kept(current), target);
  }

  lemma SameTag(a: string, b: string, t: string)
    ensures a + ":" + t == b + ":" + t <==> a == b
  {
    TaggedSuffix(a, t);
    TaggedSuffix(b, t);
    if a + ":" + t == b + ":" + t { assert |a| == |b|; }
  }
}
