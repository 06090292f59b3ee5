/** Access control, read back: which addresses a server block allows and denies, in the order NGINX goes by. */
module AccessRules {
  import opened Api
  import Cf = ConfigItems
  import G = Generator
  import opened Items
  import L = LocationItems
  import opened Nesting
  import NC = NestingConfig
  import R = RouteItems
  import opened Templates
  import opened Text

  datatype Rule = Allow(address: string) | Deny(address: string)

  predicate IsRule(item: Item) {
    item.Directive? && item.indent == 4 && (item.name == "allow" || item.name == "deny")
  }

  function RuleOf(item: Item): seq<Rule> {
    if !IsRule(item) then [] else if item.name == "allow" then [Allow(item.value)] else [Deny(item.value)]
  }

  /** The rules of a server block, in order. */
  function Rules(items: seq<Item>): seq<Rule> {
    if items == [] then [] else RuleOf(items[0]) + Rules(items[1..])
  }

  predicate Without(items: seq<Item>) {
    forall i :: i in items ==> !IsRule(i)
  }

  lemma {:induction false} RulesAppend(a: seq<Item>, b: seq<Item>)
    ensures Rules(a + b) == Rules(a) + Rules(b)
  {
    hide RuleOf;
    if a == [] {
      assert a + b == b;
    } else {
      assert (a + b)[1..] == a[1..] + b;
      RulesAppend(a[1..], b);
    }
  }

  lemma {:induction false} NoRules(items: seq<Item>)
    requires Without(items)
    ensures Rules(items) == []
  {
    hide IsRule;
    if items != [] {
      NoRules(items[1..]);
    }
  }

  lemma {:induction false} ConcatWithout(parts: seq<seq<Item>>)
    requires forall p :: p in parts ==> Without(p)
    ensures Without(Concat(parts))
  {
    hide IsRule;
    if parts != [] {
      assert Without(parts[0]);
      ConcatWithout(parts[1..]);
    }
  }

  lemma {:induction false} EachWithout<T>(xs: seq<T>, items: T -> seq<Item>)
    requires forall x :: x in xs ==> Without(items(x))
    ensures Without(ForEach(xs, items))
  {
    hide IsRule;
    if xs != [] {
      EachWithout(xs[1..], items);
    }
  }

  lemma Elsewhere(indent: nat, name: string, args: seq<string>)
    requires indent != 4 || (name != "" && name[0] != 'a' && name[0] != 'd') || (|name| > 1 && name[1] == 'd')
    ensures Without(Says(indent, name, args))
  {
    hide Join;
  }

  lemma WithinWithout(indent: nat, head: string, items: seq<Item>)
    requires Without(items)
    ensures Without(Within(indent, head, items))
  {
  }

  // ---------------------------------------------------------------- the rules of a route

  /** The rules the user asks for: NGINX goes by the first that matches. */
  function Wanted(a: Option<AccessControl>): seq<Rule> {
    if a.None? then [] else Allows(a.value.allow) + Denies(a.value.deny)
  }

  function Allows(addresses: seq<string>): (r: seq<Rule>)
    ensures |r| == |addresses| && forall i :: 0 <= i < |r| ==> r[i] == Allow(addresses[i])
  {
    seq(|addresses|, i requires 0 <= i < |addresses| => Allow(addresses[i]))
  }

  function Denies(addresses: seq<string>): (r: seq<Rule>)
    ensures |r| == |addresses| && forall i :: 0 <= i < |r| ==> r[i] == Deny(addresses[i])
  {
    seq(|addresses|, i requires 0 <= i < |addresses| => Deny(addresses[i]))
  }

  lemma OneRule(address: string)
    ensures Rules(R.AllowItems(address)) == [Allow(address)] && Rules(R.DenyItems(address)) == [Deny(address)]
  {
    assert Join(" ", [address]) == address;
    assert R.AllowItems(address)[1..] == [] && R.DenyItems(address)[1..] == [];
    assert "deny"[0] != "allow"[0];
  }

  lemma {:induction false} AllowsRead(addresses: seq<string>)
    ensures Rules(ForEach(addresses, R.AllowItems)) == Allows(addresses)
  {
    hide Rules, R.AllowItems;
    if addresses == [] {
      NoRules([]);
    } else {
      AllowsRead(addresses[1..]);
      OneRule(addresses[0]);
      RulesAppend(R.AllowItems(addresses[0]), ForEach(addresses[1..], R.AllowItems));
      assert Allows(addresses) == [Allow(addresses[0])] + Allows(addresses[1..]);
    }
  }

  lemma {:induction false} DeniesRead(addresses: seq<string>)
    ensures Rules(ForEach(addresses, R.DenyItems)) == Denies(addresses)
  {
    hide Rules, R.DenyItems;
    if addresses == [] {
      NoRules([]);
    } else {
      DeniesRead(addresses[1..]);
      OneRule(addresses[0]);
      RulesAppend(R.DenyItems(addresses[0]), ForEach(addresses[1..], R.DenyItems));
      assert Denies(addresses) == [Deny(addresses[0])] + Denies(addresses[1..]);
    }
  }

  lemma AccessReads(a: AccessControl)
    ensures Rules(R.AccessItems(a)) == Wanted(Some(a))
  {
    hide Rules, R.AllowItems, R.DenyItems, ForEach;
    AllowsRead(a.allow);
    DeniesRead(a.deny);
    RulesAppend(ForEach(a.allow, R.AllowItems), ForEach(a.deny, R.DenyItems));
  }

  // ---------------------------------------------------------------- everything else has no rules

  lemma ListensWithout(l: Option<ListenSpec>, tls: bool)
    ensures Without(R.ListenItems(l, tls))
  {
    hide Itoa, Join;
    assert "listen"[0] == 'l';
  }

  lemma CertificatesWithout(secret: string)
    ensures Without(R.CertificateItems(secret)) && Without(R.RedirectItems())
  {
    hide Says;
    Elsewhere(4, "ssl_certificate", ["/etc/nginx/ssl/" + secret + "/tls.crt"]);
    Elsewhere(4, "ssl_certificate_key", ["/etc/nginx/ssl/" + secret + "/tls.key"]);
    Elsewhere(8, "return", ["301", "https://$host$request_uri"]);
  }

  lemma LimitsWithout(r: RateLimit, zone: string)
    ensures Without(R.ZoneItems(r, zone)) && Without(R.LimitItems(r, zone)) && Without(R.LimitItem(8, r, zone))
  {
    hide Says, Itoa;
    Elsewhere(0, "limit_req_zone", [r.key, "zone=" + zone + ":" + r.zone, "rate=" + r.rate]);
    Elsewhere(4, "limit_req", ["zone=" + zone, "burst=" + Itoa(r.burst)] + R.U.Given(r.noDelay, "nodelay"));
    Elsewhere(8, "limit_req", ["zone=" + zone, "burst=" + Itoa(r.burst)] + R.U.Given(r.noDelay, "nodelay"));
    Elsewhere(4, "limit_req_status", ["429"]);
  }

  lemma AddWithout(indent: nat, name: string, value: string)
    ensures Without(R.AddItem(indent, name, value))
  {
    hide Says;
    Elsewhere(indent, "add_header", [name, R.Quotes(value), "always"]);
  }

  lemma HeadersWithout(h: Headers)
    ensures Without(R.HeaderItems(h))
  {
    hide Says, IsRule, R.AddItem, ForEach;
    AddWithout(4, "X-Frame-Options", "SAMEORIGIN");
    AddWithout(4, "X-Content-Type-Options", "nosniff");
    AddWithout(4, "X-XSS-Protection", "1; mode=block");
    AddWithout(4, "Referrer-Policy", "strict-origin-when-cross-origin");
    forall kv | kv in h.add
      ensures Without(R.AddItems(kv))
    {
      AddWithout(4, kv.0, kv.1);
    }
    forall name | name in h.remove
      ensures Without(R.RemoveItems(name))
    {
      Elsewhere(4, "proxy_hide_header", [name]);
    }
    EachWithout(h.add, R.AddItems);
    EachWithout(h.remove, R.RemoveItems);
  }

  lemma CorsWithout(c: Cors)
    ensures Without(R.CorsItems(c))
  {
    hide Says, IsRule, R.AddItem, ForEach, Join, Itoa;
    Elsewhere(4, "add_header", ["Access-Control-Allow-Origin", "$cors_origin", "always"]);
    Elsewhere(4, "add_header", ["Access-Control-Max-Age", Itoa(c.maxAge), "always"]);
    AddWithout(4, "Access-Control-Allow-Methods", Join(", ", c.allowMethods));
    AddWithout(4, "Access-Control-Allow-Headers", Join(", ", c.allowHeaders));
    AddWithout(4, "Access-Control-Allow-Credentials", "true");
    AddWithout(4, "Access-Control-Expose-Headers", Join(", ", c.exposeHeaders));
    forall o | o in c.allowOrigins
      ensures Without(R.OriginItems(o))
    {
      Elsewhere(4, "set", ["$cors_origin", R.Quotes(o)]);
    }
    EachWithout(c.allowOrigins, R.OriginItems);
  }

  lemma DeepWithout()
    ensures forall n, args :: Without(Says(8, n, args))
    ensures Without([])
  {
    hide Says;
    forall n, args
      ensures Without(Says(8, n, args))
    {
      Elsewhere(8, n, args);
    }
  }

  lemma SettingsWithout(p: ProxySettings)
    ensures Without(L.SettingsItems(p))
  {
    hide Says, IsRule, ForEach, Itoa;
    DeepWithout();
    EachWithout(p.setHeaders, L.SetItems);
  }

  lemma ForwardWithout()
    ensures Without(L.ForwardItems())
  {
    hide Says, IsRule;
    DeepWithout();
  }

  lemma StaticWithout(s: StaticContent)
    ensures Without(L.StaticItems(s))
  {
    hide Says, IsRule, Join;
    DeepWithout();
  }

  lemma ReturnWithout(r: ReturnSpec)
    ensures Without(L.ReturnItems(r))
  {
    hide Says, IsRule, Itoa;
    DeepWithout();
  }

  lemma HandlersWithout(l: Location, names: G.Names)
    requires G.Resolves(l, names)
    ensures Without(L.HandlerItems(l, names))
  {
    hide Says, IsRule, L.SettingsItems, L.ForwardItems, L.StaticItems, L.ReturnItems;
    DeepWithout();
    ForwardWithout();
    if l.staticContent.Some? {
      StaticWithout(l.staticContent.value);
    }
    if l.fixedReturn.Some? {
      ReturnWithout(l.fixedReturn.value);
    }
    if l.proxySettings.Some? {
      SettingsWithout(l.proxySettings.value);
    }
  }

  lemma LocationWithout(key: Key, l: Location, names: G.Names)
    requires G.Resolves(l, names) && Without(Own(8, l.snippet))
    ensures Without(L.OfLocation(key, l, names))
  {
    hide IsRule, ForEach, Concat, Within, Own, L.HandlerItems, L.AddItems, R.LimitItem, R.LimitItems, R.ZoneItems, G.Sanitize, G.ReplaceSlashes;
    var zone := G.Sanitize(key.namespace + "-" + key.name + "-" + G.ReplaceSlashes(l.path));
    HandlersWithout(l, names);
    if l.rateLimit.Some? {
      LimitsWithout(l.rateLimit.value, zone);
    }
    if l.headers.Some? {
      AddsWithout(l.headers.value.add);
    }
    var limit := if L.LimitOn(l.rateLimit) then R.LimitItem(8, l.rateLimit.value, zone) else [];
    var added := if l.headers.Some? then ForEach(l.headers.value.add, L.AddItems) else [];
    ConcatWithout([L.HandlerItems(l, names), limit, added, Own(8, l.snippet)]);
    WithinWithout(4, "location " + l.path, Concat([L.HandlerItems(l, names), limit, added, Own(8, l.snippet)]));
  }

  lemma AddsWithout(ps: Pairs)
    ensures Without(ForEach(ps, L.AddItems))
  {
    hide IsRule, R.AddItem;
    forall kv | kv in ps
      ensures Without(L.AddItems(kv))
    {
      AddWithout(8, kv.0, kv.1);
    }
    EachWithout(ps, L.AddItems);
  }

  lemma {:induction false} LocationsWithout(key: Key, ls: seq<Location>, names: G.Names)
    requires forall l :: l in ls ==> G.Resolves(l, names) && Without(Own(8, l.snippet))
    ensures Without(Cf.OfLocations(key, ls, names))
  {
    hide IsRule, Own, G.Resolves, L.OfLocation;
    if ls != [] {
      LocationWithout(key, ls[0], names);
      LocationsWithout(key, ls[1..], names);
    }
  }

  // ---------------------------------------------------------------- the whole block

  /** No snippet has rules of its own at the level of the server. */
  predicate SnippetsSilent(s: RouteSpec) {
    Without(Own(4, s.snippet)) && forall l :: l in s.locations ==> Without(Own(8, l.snippet))
  }

  /** The parts before the locations: nothing but the fifth has rules. */
  lemma BeforeRules(r: Route)
    requires SnippetsSilent(r.spec)
    ensures Rules(Concat(Cf.BeforeItems(r))) == Wanted(r.spec.accessControl)
  {
    hide Rules, IsRule, Concat, Says, Own, R.ListenItems, R.CertificateItems, R.RedirectItems, R.AccessItems, R.LimitItems, R.ZoneItems,
         R.LimitItem, R.HeaderItems, R.CorsItems, Cf.ZoneOf, Wanted;
    var s, parts := r.spec, Cf.BeforeItems(r);
    ListensWithout(s.listen, Cf.Encrypts(s));
    Elsewhere(4, "server_name", [s.serverName]);
    if s.tls.Some? {
      CertificatesWithout(s.tls.value.secretName);
    }
    if s.rateLimit.Some? {
      LimitsWithout(s.rateLimit.value, Cf.ZoneOf(r.key));
    }
    if s.headers.Some? {
      HeadersWithout(s.headers.value);
    }
    if s.cors.Some? {
      CorsWithout(s.cors.value);
    }
    AccessPart(s);
    assert Without([]);
    forall p | p in parts[..4] || p in parts[5..]
      ensures Without(p)
    {
    }
    ConcatWithout(parts[..4]);
    ConcatWithout(parts[5..]);
    NoRules(Concat(parts[..4]));
    NoRules(Concat(parts[5..]));
    assert parts == parts[..4] + ([parts[4]] + parts[5..]);
    ConcatAppend(parts[..4], [parts[4]] + parts[5..]);
    ConcatCons(parts[4], parts[5..]);
    RulesAppend(Concat(parts[..4]), parts[4] + Concat(parts[5..]));
    RulesAppend(parts[4], Concat(parts[5..]));
  }

  lemma AccessPart(s: RouteSpec)
    ensures Rules(if s.accessControl.Some? then R.AccessItems(s.accessControl.value) else []) == Wanted(s.accessControl)
  {
    hide R.AccessItems;
    if s.accessControl.Some? {
      AccessReads(s.accessControl.value);
    }
  }

  lemma {:induction false} ConcatAppend(a: seq<seq<Item>>, b: seq<seq<Item>>)
    ensures Concat(a + b) == Concat(a) + Concat(b)
  {
    if a == [] {
      assert a + b == b;
    } else {
      assert (a + b)[1..] == a[1..] + b;
      ConcatAppend(a[1..], b);
    }
  }

  lemma ConcatCons(p: seq<Item>, rest: seq<seq<Item>>)
    ensures Concat([p] + rest) == p + Concat(rest)
  {
    assert ([p] + rest)[1..] == rest;
  }

  /**
   Access control: read from the text of its server block, the rules of a route are the addresses it allows, in order,
   and then those it denies, in order, and no others.
   */
  lemma RouteRules(r: Route, names: G.Names)
    requires NC.CleanRoute(Free, r) && G.RouteResolves(r, names) && NC.CleanNames(Free, names) && SnippetsSilent(r.spec)
    requires forall n :: n in names ==> names[n] != ""
    ensures Rules(ItemsOf(Unlines(RouteLines(G.RouteOf(r, names))))) == Wanted(r.spec.accessControl)
  {
    hide Rules, IsRule, ItemsOf, Unlines, RouteLines, G.RouteOf, G.Resolves, Concat, Cf.BeforeItems, Cf.OfLocations, R.ZoneItems, R.LimitItem, R.LimitItems,
         Own, Wanted, NC.CleanRoute, NC.CleanNames, Cf.ZoneOf;
    Cf.RouteReads(r, names);
    BeforeRules(r);
    LocationsWithout(r.key, r.spec.locations, names);
    var before, rest := Cf.BeforeItems(r), Cf.OfLocations(r.key, r.spec.locations, names);
    var zone := if L.LimitOn(r.spec.rateLimit) then R.ZoneItems(r.spec.rateLimit.value, Cf.ZoneOf(r.key)) else [];
    if r.spec.rateLimit.Some? {
      LimitsWithout(r.spec.rateLimit.value, Cf.ZoneOf(r.key));
    }
    BlockRules(zone, before, rest);
  }

  lemma BlockRules(zone: seq<Item>, before: seq<seq<Item>>, rest: seq<Item>)
    requires Without(zone) && Without(rest)
    ensures Rules(zone + Within(0, "server", Concat(before + [rest]))) == Rules(Concat(before))
  {
    hide Rules, Concat;
    assert Without([Opening(0, "server")]) && Without([Closing(0)]);
    NoRules(zone);
    NoRules(rest);
    NoRules([Opening(0, "server")]);
    NoRules([Closing(0)]);
    ConcatAppend(before, [rest]);
    ConcatOne(rest);
    var inner := Concat(before) + rest;
    RulesAppend(Concat(before), rest);
    RulesAppend([Opening(0, "server")], inner);
    RulesAppend([Opening(0, "server")] + inner, [Closing(0)]);
    RulesAppend(zone, [Opening(0, "server")] + inner + [Closing(0)]);
  }

  lemma ConcatOne(p: seq<Item>)
    ensures Concat([p]) == p
  {
    assert [p][1..] == [];
  }
}
