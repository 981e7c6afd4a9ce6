/**
 * Which pages show the site's header and footer, and which show the WhatsApp
 * button: each hides its element on every path that starts with one of a
 * fixed list of prefixes.
 */
module RouteVisibility {
  import opened Common

  /** `prefixes.some(p => path.startsWith(p))` */
  function StartsWithAny(path: string, prefixes: seq<string>): (r: bool)
    ensures r <==> exists i :: 0 <= i < |prefixes| && StartsWith(path, prefixes[i])
  {
    if prefixes == [] then false
    else
      assert forall i :: 1 <= i < |prefixes| ==> prefixes[i] == prefixes[1..][i - 1];
      StartsWith(path, prefixes[0]) || StartsWithAny(path, prefixes[1..])
  }

  lemma StartsWithAnyCons(path: string, prefix: string, rest: seq<string>)
    ensures StartsWithAny(path, [prefix] + rest) <==> StartsWith(path, prefix) || StartsWithAny(path, rest)
  {
    assert ([prefix] + rest)[1..] == rest;
  }

  /** Extending a path that matches a prefix keeps it matching. */
  lemma StartsWithAnyExtend(path: string, suffix: string, prefixes: seq<string>)
    requires StartsWithAny(path, prefixes)
    ensures StartsWithAny(path + suffix, prefixes)
  {
    var i :| 0 <= i < |prefixes| && StartsWith(path, prefixes[i]);
    StartsWithExtend(path, prefixes[i], suffix);
  }

  // ---- the site layout ------------------------------------------------------

  /** What the layout wraps the page in: the top bar, header and footer, or nothing. */
  datatype Frame = WithHeaderFooter | ChildrenOnly

  /** The prefixes without header and footer in the current layout. */
  const NoHeaderFooter := ["/login", "/register", "/dashboard", "/_not-found"]

  /** The same list in the older layout, which lacks `/_not-found`. */
  const LegacyNoHeaderFooter := ["/login", "/register", "/dashboard"]

  /** `showHeaderFooter` of the current layout. */
  predicate ShowHeaderFooter(path: string)
  {
    !StartsWithAny(path, NoHeaderFooter)
  }

  /** `showHeaderFooter` of the older layout. */
  predicate LegacyShowHeaderFooter(path: string)
  {
    !StartsWithAny(path, LegacyNoHeaderFooter)
  }

  /** The frame the current layout renders: the page's children alone when the header and footer are hidden. */
  function LayoutFrame(path: string): (f: Frame)
    ensures f == ChildrenOnly <==>
      StartsWith(path, "/login") || StartsWith(path, "/register") ||
      StartsWith(path, "/dashboard") || StartsWith(path, "/_not-found")
  {
    StartsWithAnyCons(path, "/_not-found", []);
    StartsWithAnyCons(path, "/dashboard", ["/_not-found"]);
    StartsWithAnyCons(path, "/register", ["/dashboard", "/_not-found"]);
    StartsWithAnyCons(path, "/login", ["/register", "/dashboard", "/_not-found"]);
    if ShowHeaderFooter(path) then WithHeaderFooter else ChildrenOnly
  }

  /** The older layout hides the header and footer exactly on the login, register and dashboard paths. */
  function LegacyLayoutFrame(path: string): (f: Frame)
    ensures f == ChildrenOnly <==>
      StartsWith(path, "/login") || StartsWith(path, "/register") || StartsWith(path, "/dashboard")
  {
    StartsWithAnyCons(path, "/dashboard", []);
    StartsWithAnyCons(path, "/register", ["/dashboard"]);
    StartsWithAnyCons(path, "/login", ["/register", "/dashboard"]);
    if LegacyShowHeaderFooter(path) then WithHeaderFooter else ChildrenOnly
  }

  /** Once the header and footer are hidden on a path, they are hidden on every path below it. */
  lemma HiddenIsPrefixClosed(path: string, suffix: string)
    ensures !ShowHeaderFooter(path) ==> !ShowHeaderFooter(path + suffix)
    ensures !LegacyShowHeaderFooter(path) ==> !LegacyShowHeaderFooter(path + suffix)
  {
    if !ShowHeaderFooter(path) {
      StartsWithAnyExtend(path, suffix, NoHeaderFooter);
    }
    if !LegacyShowHeaderFooter(path) {
      StartsWithAnyExtend(path, suffix, LegacyNoHeaderFooter);
    }
  }

  /**
   * The home page and the catalogue keep the header and footer; the test is
   * a plain prefix test, so `/loginx` and `/dashboards` lose them; the older
   * layout still frames `/_not-found`.
   */
  lemma LayoutExamples()
    ensures ShowHeaderFooter("/") && ShowHeaderFooter("/products-all")
    ensures !ShowHeaderFooter("/loginx") && !ShowHeaderFooter("/dashboards")
    ensures !ShowHeaderFooter("/_not-found") && LegacyShowHeaderFooter("/_not-found")
    ensures LegacyShowHeaderFooter("/")
  {
    assert StartsWith("/loginx", "/login");
    assert StartsWith("/dashboards", "/dashboard");
    assert StartsWith("/_not-found", "/_not-found");
    assert !StartsWith("/products-all", "/login") by {
      assert "/products-all"[1] != "/login"[1];
    }
    assert !StartsWith("/products-all", "/register") by {
      assert "/products-all"[1] != "/register"[1];
    }
    assert !StartsWith("/products-all", "/dashboard") by {
      assert "/products-all"[1] != "/dashboard"[1];
    }
    assert !StartsWith("/products-all", "/_not-found") by {
      assert "/products-all"[1] != "/_not-found"[1];
    }
    assert !StartsWith("/_not-found", "/login") by {
      assert "/_not-found"[1] != "/login"[1];
    }
    assert !StartsWith("/_not-found", "/register") by {
      assert "/_not-found"[1] != "/register"[1];
    }
    assert !StartsWith("/_not-found", "/dashboard") by {
      assert "/_not-found"[1] != "/dashboard"[1];
    }
  }

  // ---- the WhatsApp button --------------------------------------------------

  const ExcludedRoutes := ["/login", "/dashboard"]
  const WhatsAppNumber := "5575991988685"
  const WhatsAppMessage := "Olá! Vi seu site e gostaria de mais informações."

  datatype WhatsAppButton = WhatsAppButton(phoneNumber: string, message: string)

  /** `ConditionalWhatsApp`: nothing on an excluded path, otherwise the button with the fixed number and message. */
  function ConditionalWhatsApp(path: string): (b: Option<WhatsAppButton>)
    ensures b.None? <==> StartsWith(path, "/login") || StartsWith(path, "/dashboard")
    ensures b.Some? ==> b.value == WhatsAppButton(WhatsAppNumber, WhatsAppMessage)
  {
    StartsWithAnyCons(path, "/dashboard", []);
    StartsWithAnyCons(path, "/login", ["/dashboard"]);
    if StartsWithAny(path, ExcludedRoutes) then None
    else Some(WhatsAppButton(WhatsAppNumber, WhatsAppMessage))
  }

  /** Once the button is hidden on a path, it is hidden on every path below it. */
  lemma WhatsAppHiddenIsPrefixClosed(path: string, suffix: string)
    ensures ConditionalWhatsApp(path).None? ==> ConditionalWhatsApp(path + suffix).None?
  {
    if ConditionalWhatsApp(path).None? {
      StartsWithAnyExtend(path, suffix, ExcludedRoutes);
    }
  }

  /** The registration page has no header and footer but still shows the button. */
  lemma RegisterShowsButton()
    ensures ConditionalWhatsApp("/register").Some?
    ensures !ShowHeaderFooter("/register")
  {
    assert StartsWith("/register", "/register");
    assert !StartsWith("/register", "/login") by {
      assert "/register"[1] != "/login"[1];
    }
    assert !StartsWith("/register", "/dashboard") by {
      assert "/register"[1] != "/dashboard"[1];
    }
  }
}
