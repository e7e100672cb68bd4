/**
 * The site header: which navigation link is active for the current
 * pathname, how a click on an in-page hash link is handled, and the
 * mobile-menu open flag. Element lookup and scrolling are outside the model:
 * whether the target element exists is an input, and the id scrolled to is
 * an output.
 */
module SiteHeader {
  import opened Wrappers
  import opened Types

  const HomePath: Path := "/"
  /** The prefix of links to a section of the home page. */
  const HashLinkPrefix: string := "/#"

  /** `s.startsWith(prefix)`, comparing from the first character. */
  function StartsWith(s: string, prefix: string): (r: bool)
    ensures r <==> |prefix| <= |s| && s[..|prefix|] == prefix
  {
    if prefix == [] then true
    else if s == [] then false
    else s[0] == prefix[0] && StartsWith(s[1..], prefix[1..])
  }

  /**
   * `s.replace(pattern, replacement)` with a string pattern: only the first
   * occurrence is replaced; with no occurrence the string is unchanged.
   */
  function ReplaceFirst(s: string, pattern: string, replacement: string): (r: string)
    ensures StartsWith(s, pattern) ==> r == replacement + s[|pattern|..]
    decreases |s|
  {
    if StartsWith(s, pattern) then replacement + s[|pattern|..]
    else if s == [] then s
    else [s[0]] + ReplaceFirst(s[1..], pattern, replacement)
  }

  /** A string none of whose positions starts an occurrence of `pattern` is left unchanged. */
  lemma {:induction false} ReplaceAbsent(s: string, pattern: string, replacement: string)
    requires forall i :: 0 <= i <= |s| ==> !StartsWith(s[i..], pattern)
    ensures ReplaceFirst(s, pattern, replacement) == s
    decreases |s|
  {
    assert s[0..] == s;
    if s != [] {
      forall i | 0 <= i <= |s[1..]|
        ensures !StartsWith(s[1..][i..], pattern)
      {
        assert s[1..][i..] == s[i + 1..];
      }
      ReplaceAbsent(s[1..], pattern, replacement);
    }
  }

  /**
   * When the first occurrence of `pattern` starts at `i`, exactly that
   * occurrence is replaced and everything before and after it is kept.
   */
  lemma {:induction false} ReplaceAt(s: string, pattern: string, replacement: string, i: nat)
    requires i <= |s| && StartsWith(s[i..], pattern)
    requires forall j :: 0 <= j < i ==> !StartsWith(s[j..], pattern)
    ensures i + |pattern| <= |s|
    ensures ReplaceFirst(s, pattern, replacement) == s[..i] + replacement + s[i + |pattern|..]
    decreases i
  {
    assert s[0..] == s;
    if i > 0 {
      assert !StartsWith(s, pattern);
      var tail := s[1..];
      assert ReplaceFirst(s, pattern, replacement) == [s[0]] + ReplaceFirst(tail, pattern, replacement);
      assert tail[i - 1..] == s[i..];
      forall j | 0 <= j < i - 1
        ensures !StartsWith(tail[j..], pattern)
      {
        assert tail[j..] == s[j + 1..];
      }
      ReplaceAt(tail, pattern, replacement, i - 1);
      assert s[..i] == [s[0]] + tail[..i - 1];
      assert tail[i - 1 + |pattern|..] == s[i + |pattern|..];
    }
  }

  /** `isActive(href)`: the home link only on the home page, any other link on any pathname it prefixes. */
  function IsActive(pathname: string, href: string): (r: bool)
    ensures href == HomePath ==> (r <==> pathname == HomePath)
    ensures href != HomePath ==> (r <==> exists rest :: pathname == href + rest)
  {
    if href == HomePath then pathname == HomePath
    else
      var r := StartsWith(pathname, href);
      assert r ==> pathname == href + pathname[|href|..];
      r
  }

  /** Every link is active on its own pathname. */
  lemma IsActiveReflexive(pathname: string)
    ensures IsActive(pathname, pathname)
  {
  }

  /** The match is a plain string prefix, not a path-segment match. */
  lemma IsActiveIsNotSegmentMatch()
    ensures IsActive("/pricingx", "/pricing")
  {
  }

  /** The element id a hash link points at: the link with its `/#` removed. */
  function TargetId(href: string): (id: string)
    ensures StartsWith(href, HashLinkPrefix) ==> id == href[|HashLinkPrefix|..]
  {
    ReplaceFirst(href, HashLinkPrefix, "")
  }

  /** For a hash link, the target id is what follows `/#`, and `/#` followed by it gives the link back. */
  lemma TargetIdRoundTrip(href: string)
    requires StartsWith(href, HashLinkPrefix)
    ensures TargetId(href) == href[2..]
    ensures HashLinkPrefix + TargetId(href) == href
  {
  }

  /** The header component's state that the handlers model: the mobile-menu flag. */
  class Header {
    const pathname: string
    var isMenuOpen: bool

    constructor (pathname: string)
      ensures this.pathname == pathname && !isMenuOpen
    {
      this.pathname := pathname;
      isMenuOpen := false;
    }

    /**
     * `handleHashLinkClick`: acts only on a `/#` link clicked on the home
     * page, preventing the default navigation; then, when the target element
     * exists, closes the menu and scrolls to it. Otherwise nothing changes.
     */
    method HandleHashLinkClick(href: string, elementExists: bool) returns (defaultPrevented: bool, scrolledTo: Option<string>)
      modifies this
      ensures defaultPrevented <==> StartsWith(href, HashLinkPrefix) && pathname == HomePath
      ensures defaultPrevented && elementExists ==> !isMenuOpen && scrolledTo == Some(href[2..])
      ensures !(defaultPrevented && elementExists) ==> isMenuOpen == old(isMenuOpen) && scrolledTo.None?
    {
      defaultPrevented, scrolledTo := false, None;
      if StartsWith(href, HashLinkPrefix) && pathname == HomePath {
        defaultPrevented := true;
        var targetId := TargetId(href);
        TargetIdRoundTrip(href);
        if elementExists {
          isMenuOpen := false;
          scrolledTo := Some(targetId);
        }
      }
    }

    /** The menu button flips the flag. */
    method ToggleMenu()
      modifies this
      ensures isMenuOpen == !old(isMenuOpen)
    {
      isMenuOpen := !isMenuOpen;
    }

    /** The mobile menu's Home and Pricing links close the menu. */
    method CloseMenu()
      modifies this
      ensures !isMenuOpen
    {
      isMenuOpen := false;
    }
  }
}
