/** The mobile header of `src/components/Header.js`: the cart badge, and either the
    home header with the site title or the detail header whose title is chosen from
    the path. */
module Header {
  import opened Js
  import CartStore

  const HOME_PATH: string := "/"
  const DEFAULT_TITLE: string := "Kembali"
  const SITE_TITLE: string := "Sadesa.site"
  const BADGE_CAP: string := "9+"

  // ---------------------------------------------------------------------------------
  // The badge

  /** The cart icon's badge. */
  datatype Badge = Hidden | Shown(text: string)

  /** `cartItemCount > 0 && (cartItemCount > 9 ? '9+' : cartItemCount)` */
  function BadgeFor(count: int): (b: Badge)
    ensures b.Hidden? <==> count <= 0
    ensures count > 9 ==> b == Shown(BADGE_CAP)
    ensures 0 < count <= 9 ==> b == Shown(IntToString(count))
  {
    if !(count > 0) then Hidden
    else if count > 9 then Shown(BADGE_CAP)
    else Shown(IntToString(count))
  }

  /** The badge fits its circle: a single digit that reads back as the count, or the
      cap `9+` for every larger count. */
  lemma BadgeText(count: int)
    ensures var b := BadgeFor(count);
            b.Shown? ==>
              && |b.text| <= 2
              && (count <= 9 ==> |b.text| == 1 && ToNumber(b.text) == Some(count))
              && (count > 9 <==> b.text == BADGE_CAP)
  {
    if 0 < count <= 9 {
      ToNumberOfIntToString(count);
      assert |NatToString(count)| == 1;
    }
  }

  /** The count the header shows, kept in component state: 0 until the effect runs
      on the client, then the sum of the quantities of the store's cart. */
  class CartBadge {
    var cartItemCount: int

    constructor ()
      ensures cartItemCount == 0 && BadgeFor(cartItemCount) == Hidden
    {
      cartItemCount := 0;
    }

    /** The effect on `[cart]`. */
    method OnCartChange(cart: Option<seq<CartStore.LineItem>>)
      modifies this
      ensures cartItemCount == CartStore.TotalItems(cart)
    {
      var count := 0;
      var items := OrEmpty(cart);
      var i := 0;
      while i < |items|
        invariant 0 <= i <= |items|
        invariant count == CartStore.QuantitySum(items[..i])
      {
        CartStore.TotalsAppend(items[..i], [items[i]]);
        assert items[..i + 1] == items[..i] + [items[i]];
        count := count + items[i].quantity;
        i := i + 1;
      }
      assert items[..|items|] == items;
      cartItemCount := count;
    }
  }

  // ---------------------------------------------------------------------------------
  // The detail title

  /** One `if` of the title chain: a path prefix or an exact path, and its title. */
  datatype Rule = Prefix(path: string, title: string) | Exact(path: string, title: string)

  predicate RuleMatches(r: Rule, pathname: string) {
    match r
    case Prefix(p, _) => StartsWith(pathname, p)
    case Exact(p, _) => pathname == p
  }

  /** The rules in the order the code tests them. */
  const TITLE_RULES: seq<Rule> := [
    Prefix("/product/", "Detail Produk"),
    Prefix("/wisata/", "Detail Wisata"),
    Prefix("/desa/", "Detail Desa"),
    Prefix("/toko/", "Detail Toko"),
    Exact("/jelajah", "Jelajah"),
    Exact("/keranjang", "Keranjang"),
    Exact("/akun", "Akun Saya"),
    Exact("/checkout", "Checkout"),
    Prefix("/pesanan/", "Detail Pesanan")
  ]

  /** The title of the last rule that matches, or the default. */
  function LastMatch(rules: seq<Rule>, pathname: string, default: string): (t: string)
    ensures t == default || exists i :: 0 <= i < |rules| && RuleMatches(rules[i], pathname) && t == rules[i].title
    decreases |rules|
  {
    if rules == [] then default
    else if RuleMatches(rules[|rules| - 1], pathname) then rules[|rules| - 1].title
    else LastMatch(rules[..|rules| - 1], pathname, default)
  }

  /** The rules tried front to back, each match overwriting the title so far. */
  function ChainTitle(rules: seq<Rule>, pathname: string, current: string): string
    decreases |rules|
  {
    if rules == [] then current
    else ChainTitle(rules[1..], pathname, if RuleMatches(rules[0], pathname) then rules[0].title else current)
  }

  lemma {:induction false} ChainSnoc(rules: seq<Rule>, x: Rule, pathname: string, current: string)
    ensures ChainTitle(rules + [x], pathname, current) ==
            if RuleMatches(x, pathname) then x.title else ChainTitle(rules, pathname, current)
    decreases |rules|
  {
    if rules != [] {
      assert (rules + [x])[1..] == rules[1..] + [x];
      ChainSnoc(rules[1..], x, pathname, if RuleMatches(rules[0], pathname) then rules[0].title else current);
    } else {
      assert ([] + [x])[1..] == [];
    }
  }

  /** Testing every rule in turn and overwriting on each match yields the title of the
      LAST rule that matches. */
  lemma {:induction false} ChainIsLastMatch(rules: seq<Rule>, pathname: string, current: string)
    ensures ChainTitle(rules, pathname, current) == LastMatch(rules, pathname, current)
    decreases |rules|
  {
    if rules != [] {
      var init := rules[..|rules| - 1];
      ChainIsLastMatch(init, pathname, current);
      ChainSnoc(init, rules[|rules| - 1], pathname, current);
      assert init + [rules[|rules| - 1]] == rules;
    }
  }

  /** `pageTitle` reassigned by the chain of `if` statements. */
  method PageTitle(pathname: string) returns (pageTitle: string)
    ensures pageTitle == LastMatch(TITLE_RULES, pathname, DEFAULT_TITLE)
  {
    ghost var rest := TITLE_RULES;
    pageTitle := DEFAULT_TITLE;
    assert ChainTitle(rest, pathname, pageTitle) == ChainTitle(TITLE_RULES, pathname, DEFAULT_TITLE);
    assert rest[0] == TITLE_RULES[0];
    if StartsWith(pathname, "/product/") { pageTitle := "Detail Produk"; }
    rest := rest[1..];
    assert ChainTitle(rest, pathname, pageTitle) == ChainTitle(TITLE_RULES, pathname, DEFAULT_TITLE);
    assert rest[0] == TITLE_RULES[1];
    if StartsWith(pathname, "/wisata/") { pageTitle := "Detail Wisata"; }
    rest := rest[1..];
    assert ChainTitle(rest, pathname, pageTitle) == ChainTitle(TITLE_RULES, pathname, DEFAULT_TITLE);
    assert rest[0] == TITLE_RULES[2];
    if StartsWith(pathname, "/desa/") { pageTitle := "Detail Desa"; }
    rest := rest[1..];
    assert ChainTitle(rest, pathname, pageTitle) == ChainTitle(TITLE_RULES, pathname, DEFAULT_TITLE);
    assert rest[0] == TITLE_RULES[3];
    if StartsWith(pathname, "/toko/") { pageTitle := "Detail Toko"; }
    rest := rest[1..];
    assert ChainTitle(rest, pathname, pageTitle) == ChainTitle(TITLE_RULES, pathname, DEFAULT_TITLE);
    assert rest[0] == TITLE_RULES[4];
    if pathname == "/jelajah" { pageTitle := "Jelajah"; }
    rest := rest[1..];
    assert ChainTitle(rest, pathname, pageTitle) == ChainTitle(TITLE_RULES, pathname, DEFAULT_TITLE);
    assert rest[0] == TITLE_RULES[5];
    if pathname == "/keranjang" { pageTitle := "Keranjang"; }
    rest := rest[1..];
    assert ChainTitle(rest, pathname, pageTitle) == ChainTitle(TITLE_RULES, pathname, DEFAULT_TITLE);
    assert rest[0] == TITLE_RULES[6];
    if pathname == "/akun" { pageTitle := "Akun Saya"; }
    rest := rest[1..];
    assert ChainTitle(rest, pathname, pageTitle) == ChainTitle(TITLE_RULES, pathname, DEFAULT_TITLE);
    assert rest[0] == TITLE_RULES[7];
    if pathname == "/checkout" { pageTitle := "Checkout"; }
    rest := rest[1..];
    assert ChainTitle(rest, pathname, pageTitle) == ChainTitle(TITLE_RULES, pathname, DEFAULT_TITLE);
    assert rest[0] == TITLE_RULES[8];
    if StartsWith(pathname, "/pesanan/") { pageTitle := "Detail Pesanan"; }
    rest := rest[1..];
    assert rest == [];
    ChainIsLastMatch(TITLE_RULES, pathname, DEFAULT_TITLE);
  }

  /** Two rules never match the same path: the prefixes differ at a position inside
      all of them, and the exact paths have no trailing slash, so the order of the
      chain, and "last match wins", make no difference. */
  lemma RulesDisjoint(pathname: string)
    ensures forall i, j :: 0 <= i < j < |TITLE_RULES| ==>
              !(RuleMatches(TITLE_RULES[i], pathname) && RuleMatches(TITLE_RULES[j], pathname))
  {
    var codes := ["pr", "wi", "de", "to", "je", "ke", "ak", "ch", "pe"];
    assert forall i :: 0 <= i < |TITLE_RULES| ==> |TITLE_RULES[i].path| >= 3 && TITLE_RULES[i].path[1..3] == codes[i];
    assert forall i, j :: 0 <= i < j < |codes| ==> codes[i] != codes[j];
    forall i, j | 0 <= i < j < |TITLE_RULES|
      ensures !(RuleMatches(TITLE_RULES[i], pathname) && RuleMatches(TITLE_RULES[j], pathname))
    {
      if RuleMatches(TITLE_RULES[i], pathname) && RuleMatches(TITLE_RULES[j], pathname) {
        MatchCode(TITLE_RULES[i], pathname);
        MatchCode(TITLE_RULES[j], pathname);
      }
    }
  }

  lemma MatchCode(r: Rule, pathname: string)
    requires |r.path| >= 3 && RuleMatches(r, pathname)
    ensures |pathname| >= 3 && pathname[1..3] == r.path[1..3]
  {
    if r.Prefix? {
      assert pathname[..|r.path|][1..3] == pathname[1..3];
    }
  }

  /** When exactly one rule matches, the chain yields its title; when none does, the
      default. */
  lemma {:induction false} LastMatchOfOnly(rules: seq<Rule>, pathname: string, default: string, k: nat)
    requires k < |rules| && RuleMatches(rules[k], pathname)
    requires forall i :: 0 <= i < |rules| && i != k ==> !RuleMatches(rules[i], pathname)
    ensures LastMatch(rules, pathname, default) == rules[k].title
    decreases |rules|
  {
    if k < |rules| - 1 {
      LastMatchOfOnly(rules[..|rules| - 1], pathname, default, k);
    }
  }

  lemma {:induction false} LastMatchOfNone(rules: seq<Rule>, pathname: string, default: string)
    requires forall i :: 0 <= i < |rules| ==> !RuleMatches(rules[i], pathname)
    ensures LastMatch(rules, pathname, default) == default
    decreases |rules|
  {
    if rules != [] {
      LastMatchOfNone(rules[..|rules| - 1], pathname, default);
    }
  }

  /** Hence the detail title is the title of the one rule the path matches, and the
      default `Kembali` when none does. */
  lemma TitleOfMatchingRule(pathname: string, k: nat)
    requires k < |TITLE_RULES| && RuleMatches(TITLE_RULES[k], pathname)
    ensures LastMatch(TITLE_RULES, pathname, DEFAULT_TITLE) == TITLE_RULES[k].title
  {
    RulesDisjoint(pathname);
    assert forall i :: 0 <= i < |TITLE_RULES| && i != k ==> !RuleMatches(TITLE_RULES[i], pathname);
    LastMatchOfOnly(TITLE_RULES, pathname, DEFAULT_TITLE, k);
  }

  // ---------------------------------------------------------------------------------
  // The header

  datatype View = HomeHeader(title: string, badge: Badge) | DetailHeader(title: string, badge: Badge)

  /** The header for a path: the home header exactly on `/`, with the `title` prop or
      `Sadesa.site`; elsewhere the detail header with the title chosen from the path. */
  method Render(pathname: string, title: Option<string>, cartItemCount: int) returns (v: View)
    ensures v.HomeHeader? <==> pathname == HOME_PATH
    ensures v.HomeHeader? ==> v.title == Or(title, SITE_TITLE)
    ensures v.DetailHeader? ==> v.title == LastMatch(TITLE_RULES, pathname, DEFAULT_TITLE)
    ensures v.badge == BadgeFor(cartItemCount)
  {
    var isHomePage := pathname == HOME_PATH;
    if !isHomePage {
      var pageTitle := PageTitle(pathname);
      return DetailHeader(pageTitle, BadgeFor(cartItemCount));
    }
    v := HomeHeader(Or(title, SITE_TITLE), BadgeFor(cartItemCount));
  }
}
