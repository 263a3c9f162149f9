/** The application frame: the five navigation links, which of them is
    highlighted for the current path, and the initial shown in the avatar. */
module Layout {
  import opened Common

  datatype NavItem = NavItem(to: string, caption: string)

  const NavItems: seq<NavItem> := [
    NavItem("/", "Dashboard"),
    NavItem("/clients", "Clients"),
    NavItem("/cases", "Cases"),
    NavItem("/calendar", "Calendar"),
    NavItem("/settings", "Settings")
  ]

  /** A link is highlighted on its own path and on every path below it. */
  predicate IsActive(pathname: string, to: string)
    ensures IsActive(pathname, to) ==> to <= pathname
  {
    pathname == to || StartsWith(pathname, to + "/")
  }

  /** An active link's path agrees with the current path at each of its offsets. */
  lemma ActivePrefix(pathname: string, to: string, k: nat)
    requires IsActive(pathname, to) && k < |to|
    ensures k < |pathname| && pathname[k] == to[k]
  {
  }

  /** A sub-page highlights its section; a path that merely begins with the same letters does not. */
  lemma CasesSubpathActive()
    ensures IsActive("/cases/123", "/cases")
    ensures !IsActive("/casesX", "/cases")
  {
    assert "/cases/123"[..7] == "/cases/";
    assert "/casesX"[6] != ("/cases" + "/")[6];
  }

  /** The dashboard link is highlighted only on "/" itself and on paths beginning with "//". */
  lemma DashboardActiveIff(pathname: string)
    ensures IsActive(pathname, "/") <==> pathname == "/" || StartsWith(pathname, "//")
  {
    assert "/" + "/" == "//";
  }

  /** On any path at most one of the five links is highlighted. */
  lemma AtMostOneActive(pathname: string, i: nat, j: nat)
    requires i < j < |NavItems|
    ensures !(IsActive(pathname, NavItems[i].to) && IsActive(pathname, NavItems[j].to))
  {
    if IsActive(pathname, NavItems[i].to) && IsActive(pathname, NavItems[j].to) {
      var a, b := NavItems[i].to, NavItems[j].to;
      if i == 0 {
        // Every other link continues with a letter, the dashboard with "/" or nothing.
        ActivePrefix(pathname, b, 1);
        assert false;
      } else {
        // Any two section paths first differ at offset 1, 2 or 3.
        var k := if i == 1 || j == 4 then (if j == 4 then 1 else 2) else 3;
        ActivePrefix(pathname, a, k);
        ActivePrefix(pathname, b, k);
        assert false;
      }
    }
  }

  /** `session?.user?.name?.charAt(0) || 'U'`. */
  function AvatarInitial(name: Option<string>): (r: string)
    ensures |r| == 1
    ensures r == "U" <==> name.None? || name.value == [] || name.value[0] == 'U'
    ensures name.Some? && name.value != [] ==> r[0] == name.value[0]
  {
    if name.Some? && name.value != [] then [name.value[0]] else "U"
  }
}
