/**
 * The sidebar navigation of the main layout: three fixed items, and the
 * rule that marks an item active for the current pathname.
 */
module Nav {

  /**
   * A sidebar entry: its caption (the source's `label`, a Dafny keyword) and
   * its route. The icon is presentation and is not modelled.
   */
  datatype NavItem = NavItem(title: string, to: string)

  const NavItems: seq<NavItem> := [
    NavItem("Home", "/home"),
    NavItem("Customers", "/customers"),
    NavItem("Products", "/products")
  ]

  /** `to + "/"` begins a string exactly when `to` does and a `/` follows it there. */
  lemma SlashPrefix(pathname: string, to: string)
    ensures to + "/" <= pathname <==> to <= pathname && |pathname| > |to| && pathname[|to|] == '/'
  {
    if to <= pathname && |pathname| > |to| && pathname[|to|] == '/' {
      assert pathname[..|to| + 1] == to + "/";
    }
    if to + "/" <= pathname {
      assert pathname[..|to|] == (to + "/")[..|to|] == to;
    }
  }

  /**
   * The item routed at `to` is active on `to` itself and on every path
   * below it: the pathname starts with `to` and either ends there or
   * continues with a `/`.
   */
  predicate IsActive(pathname: string, to: string)
    ensures IsActive(pathname, to) <==>
      to <= pathname && (|pathname| == |to| || pathname[|to|] == '/')
  {
    SlashPrefix(pathname, to);
    pathname == to || to + "/" <= pathname
  }

  /** A path below `to` activates the item. */
  lemma BelowIsActive(to: string, rest: string)
    ensures IsActive(to + "/" + rest, to)
  {
    assert (to + "/" + rest)[..|to| + 1] == to + "/";
  }

  /** `/homepage` extends `/home` without a slash boundary, so Home is not active there. */
  lemma HomepageIsNotHome()
    ensures !IsActive("/homepage", "/home")
  {
    assert "/homepage"[5] == 'p';
  }

  /** A pathname that does not start with `to` never activates the item. */
  lemma ActiveStartsWithTarget(pathname: string, to: string)
    requires IsActive(pathname, to)
    ensures to <= pathname
  {
  }

  /** No pathname activates two of the three sidebar items. */
  lemma {:induction false} AtMostOneActive(pathname: string, i: int, j: int)
    requires 0 <= i < j < |NavItems|
    ensures !(IsActive(pathname, NavItems[i].to) && IsActive(pathname, NavItems[j].to))
  {
    // an active item's target is a prefix of the pathname, and the second
    // character already tells the three targets apart
    assert NavItems[0].to[1] == 'h' && NavItems[1].to[1] == 'c' && NavItems[2].to[1] == 'p';
  }

  /** The `active` flag of each sidebar item, in sidebar order. */
  function ActiveFlags(pathname: string): (r: seq<bool>)
    ensures |r| == |NavItems|
    ensures forall i :: 0 <= i < |r| ==> (r[i] <==> IsActive(pathname, NavItems[i].to))
    ensures forall i, j :: 0 <= i < j < |r| && r[i] ==> !r[j]
  {
    var flags := seq(|NavItems|, i requires 0 <= i < |NavItems| => IsActive(pathname, NavItems[i].to));
    assert forall i, j :: 0 <= i < j < |flags| && flags[i] ==> !flags[j] by {
      forall i, j | 0 <= i < j < |flags| && flags[i]
        ensures !flags[j]
      {
        AtMostOneActive(pathname, i, j);
      }
    }
    flags
  }
}
