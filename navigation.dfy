/** The page-transition link filter of the index page: a click on a
    navigation link, button or quadrant is taken over (droplet animation,
    then navigation) only for links to another `.html` page without a
    fragment; every other click keeps the browser's default navigation. */
module Navigation {
  import opened Pages

  /** `s.includes(pat)`, scanning from the left. */
  function Includes(s: string, pat: string): bool
    decreases |s|
  {
    if |pat| > |s| then false
    else if s[..|pat|] == pat then true
    else Includes(s[1..], pat)
  }

  /** `pat` occurs in `s` starting at position `i`. */
  ghost predicate OccursAt(s: string, pat: string, i: int)
  {
    0 <= i <= |s| - |pat| && s[i..i + |pat|] == pat
  }

  /** `pat` occurs in `s` at some position. */
  ghost predicate Occurs(s: string, pat: string)
  {
    exists i :: OccursAt(s, pat, i)
  }

  /** The scan finds `pat` exactly when it occurs somewhere. */
  lemma {:induction false} IncludesIffOccurs(s: string, pat: string)
    ensures Includes(s, pat) <==> Occurs(s, pat)
    decreases |s|
  {
    if |pat| > |s| {
    } else if s[..|pat|] == pat {
      assert OccursAt(s, pat, 0);
    } else {
      IncludesIffOccurs(s[1..], pat);
      if Occurs(s, pat) {
        var i :| OccursAt(s, pat, i);
        assert i != 0;
        assert s[1..][i - 1..i - 1 + |pat|] == s[i..i + |pat|];
        assert OccursAt(s[1..], pat, i - 1);
      }
      if Occurs(s[1..], pat) {
        var i :| OccursAt(s[1..], pat, i);
        assert s[i + 1..i + 1 + |pat|] == s[1..][i..i + |pat|];
        assert OccursAt(s, pat, i + 1);
      }
    }
  }

  /** A one-character pattern is included exactly when the character is. */
  lemma IncludesChar(s: string, c: char)
    ensures Includes(s, [c]) <==> c in s
  {
    IncludesIffOccurs(s, [c]);
    if c in s {
      var i :| 0 <= i < |s| && s[i] == c;
      assert OccursAt(s, [c], i);
    }
    if Occurs(s, [c]) {
      var i :| OccursAt(s, [c], i);
      assert s[i] == s[i..i + 1][0];
    }
  }

  /** What the click handler does with a click. */
  datatype LinkOutcome = FollowDefault | Intercept(target: string)

  /** The handler's test on the clicked element's `href` attribute. */
  function OnLinkClick(href: Option<string>): LinkOutcome
  {
    if href.Some? && href.value != "" && Includes(href.value, ".html") && !Includes(href.value, "#")
    then Intercept(href.value)
    else FollowDefault
  }

  /** A click is taken over exactly when the link has an `href` in which
      ".html" occurs and '#' does not; the navigation it schedules goes to
      that very `href`. */
  lemma InterceptIff(href: Option<string>)
    ensures OnLinkClick(href).Intercept? <==>
      href.Some? && Occurs(href.value, ".html") && '#' !in href.value
    ensures OnLinkClick(href).Intercept? ==> OnLinkClick(href).target == href.value
  {
    if href.Some? {
      IncludesIffOccurs(href.value, ".html");
      IncludesChar(href.value, '#');
      assert "#" == ['#'];
      if Occurs(href.value, ".html") {
        var i :| OccursAt(href.value, ".html", i);
        assert href.value != "";
      }
    }
  }

  /** A plain page link is taken over. */
  lemma PageLinkIntercepted()
    ensures OnLinkClick(Some("about.html")) == Intercept("about.html")
  {
    InterceptIff(Some("about.html"));
    assert OccursAt("about.html", ".html", 5);
  }

  /** A link with a '#' anywhere in its `href` keeps the default
      navigation. */
  lemma FragmentLinkFollowed(href: string)
    requires '#' in href
    ensures OnLinkClick(Some(href)) == FollowDefault
  {
    InterceptIff(Some(href));
  }
}
