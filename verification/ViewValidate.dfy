/** The checker of a node's view declaration, against a declarative reading of what it checks. */
module ViewValidate {
  import opened Wrappers

  datatype PageRef = PageRef(param: nat, page: string, slot: nat)
  datatype Affordance = Affordance(param: nat, envelope: Option<nat>)
  datatype Overlay = Overlay(param: nat, identity: bool)
  datatype Variant = Variant(name: string, pages: seq<PageRef>, overlays: seq<Overlay>, labels: seq<nat>)

  datatype Rule = Rule(
    pages: seq<PageRef>,
    affordances: seq<Affordance>,
    envelopes: seq<seq<nat>>,
    macros: seq<seq<nat>>,
    routing: seq<nat>,
    variants: seq<Variant>)

  datatype Doc = Doc(params: seq<nat>, view: Option<Rule>)

  /** The base rule, or one variant, with the params it places. */
  datatype View = View(variant: Option<string>, pages: seq<PageRef>)

  function Views(r: Rule): (vs: seq<View>)
    ensures |vs| == |r.variants| + 1
  {
    [View(None, r.pages)] + seq(|r.variants|, i requires 0 <= i < |r.variants| => View(Some(r.variants[i].name),
      r.variants[i].pages))
  }

  datatype Defect =
    | UndeclaredPage(variant: Option<string>, place: PageRef)
    | UndisplayedAffordance(variant: Option<string>, param: nat)
    | MissingEnvelope(variant: Option<string>, param: nat, group: nat)
    | UndisplayedEnvelope(variant: Option<string>, group: nat, param: nat)
    | UndisplayedMacro(variant: Option<string>, group: nat, param: nat)
    | UndeclaredRouting(variant: Option<string>, param: nat)
    | Unpaged(param: nat)
    | DoubleOverlay(name: string, param: nat)
    | PartialIdentity(param: nat)
    | UndeclaredLabel(name: string, param: nat)

  predicate Displays(v: View, param: nat) {
    exists k | 0 <= k < |v.pages| :: v.pages[k].param == param
  }

  // ── What each check looks for, place by place ──────────────────────────────

  predicate PageAt(params: seq<nat>, v: View, k: int, d: Defect) {
    0 <= k < |v.pages| && v.pages[k].param !in params && d == UndeclaredPage(v.variant, v.pages[k])
  }

  predicate AffordanceAt(r: Rule, v: View, k: int, d: Defect) {
    0 <= k < |r.affordances| &&
    var a := r.affordances[k];
    || (!Displays(v, a.param) && d == UndisplayedAffordance(v.variant, a.param))
    || (a.envelope.Some? && a.envelope.value >= |r.envelopes|
        && d == MissingEnvelope(v.variant, a.param, a.envelope.value))
  }

  predicate EnvelopeAt(r: Rule, v: View, g: int, k: int, d: Defect) {
    && 0 <= g < |r.envelopes| && 0 <= k < |r.envelopes[g]|
    && r.envelopes[g][k] != 0 && !Displays(v, r.envelopes[g][k])
    && d == UndisplayedEnvelope(v.variant, g, r.envelopes[g][k])
  }

  predicate MacroAt(r: Rule, v: View, g: int, k: int, d: Defect) {
    && 0 <= g < |r.macros| && 0 <= k < |r.macros[g]|
    && !Displays(v, r.macros[g][k]) && d == UndisplayedMacro(v.variant, g, r.macros[g][k])
  }

  predicate RoutingAt(params: seq<nat>, r: Rule, v: View, k: int, d: Defect) {
    0 <= k < |r.routing| && r.routing[k] !in params && d == UndeclaredRouting(v.variant, r.routing[k])
  }

  ghost predicate OfView(params: seq<nat>, r: Rule, v: View, d: Defect) {
    || (exists k :: PageAt(params, v, k, d))
    || (exists k :: AffordanceAt(r, v, k, d))
    || (exists g, k :: EnvelopeAt(r, v, g, k, d))
    || (exists g, k :: MacroAt(r, v, g, k, d))
    || (exists k :: RoutingAt(params, r, v, k, d))
  }

  predicate UnpagedAt(params: seq<nat>, r: Rule, k: int, d: Defect) {
    && 0 <= k < |params| && d == Unpaged(params[k])
    && forall i | 0 <= i < |Views(r)| :: !Displays(Views(r)[i], params[k])
  }

  predicate OverlayAt(r: Rule, i: int, k: int, d: Defect) {
    && 0 <= i < |r.variants| && 0 <= k < |r.variants[i].overlays|
    && d == DoubleOverlay(r.variants[i].name, r.variants[i].overlays[k].param)
    && exists j | 0 <= j < k :: r.variants[i].overlays[j].param == r.variants[i].overlays[k].param
  }

  predicate Flags(v: Variant, param: nat) { Overlay(param, true) in v.overlays }

  /** Some variant of this name flags the param. */
  predicate FlaggedName(r: Rule, name: string, param: nat) {
    exists i | 0 <= i < |r.variants| :: r.variants[i].name == name && Flags(r.variants[i], param)
  }

  /** Some variant's name is not among the names that flag the param. */
  ghost predicate Unrepeated(r: Rule, param: nat) {
    exists i | 0 <= i < |r.variants| :: !FlaggedName(r, r.variants[i].name, param)
  }

  ghost predicate IdentityOf(r: Rule, d: Defect) {
    d.PartialIdentity? && (exists i | 0 <= i < |r.variants| :: Flags(r.variants[i], d.param)) && Unrepeated(r, d.param)
  }

  predicate LabelAt(params: seq<nat>, r: Rule, i: int, k: int, d: Defect) {
    && 0 <= i < |r.variants| && 0 <= k < |r.variants[i].labels|
    && r.variants[i].labels[k] !in params && d == UndeclaredLabel(r.variants[i].name, r.variants[i].labels[k])
  }

  /** A defect the declaration really has. */
  ghost predicate HasDefect(doc: Doc, d: Defect) {
    doc.view.Some? &&
    var r := doc.view.value;
    || (exists i | 0 <= i < |Views(r)| :: OfView(doc.params, r, Views(r)[i], d))
    || (exists k :: UnpagedAt(doc.params, r, k, d))
    || (exists i, k :: OverlayAt(r, i, k, d))
    || IdentityOf(r, d)
    || (exists i, k :: LabelAt(doc.params, r, i, k, d))
  }

  // ── The checker ────────────────────────────────────────────────────────────

  method CheckPages(params: seq<nat>, v: View) returns (out: seq<Defect>, seen: seq<nat>)
    ensures forall d :: d in out <==> exists k :: PageAt(params, v, k, d)
    ensures forall p :: p in seen <==> Displays(v, p)
  {
    out, seen := [], [];
    for n := 0 to |v.pages|
      invariant forall d :: d in out <==> exists k :: k < n && PageAt(params, v, k, d)
      invariant |seen| == n && forall k | 0 <= k < n :: seen[k] == v.pages[k].param
    {
      ghost var before := out;
      if v.pages[n].param !in params {
        out := out + [UndeclaredPage(v.variant, v.pages[n])];
      }
      forall d ensures d in out <==> d in before || PageAt(params, v, n, d) {}
      seen := seen + [v.pages[n].param];
    }
  }

  method CheckAffordances(r: Rule, v: View, seen: seq<nat>) returns (out: seq<Defect>)
    requires forall p :: p in seen <==> Displays(v, p)
    ensures forall d :: d in out <==> exists k :: AffordanceAt(r, v, k, d)
  {
    out := [];
    for n := 0 to |r.affordances|
      invariant forall d :: d in out <==> exists k :: k < n && AffordanceAt(r, v, k, d)
    {
      var a := r.affordances[n];
      ghost var before := out;
      if a.param !in seen {
        out := out + [UndisplayedAffordance(v.variant, a.param)];
      }
      if a.envelope.Some? && a.envelope.value >= |r.envelopes| {
        out := out + [MissingEnvelope(v.variant, a.param, a.envelope.value)];
      }
      forall d ensures d in out <==> d in before || AffordanceAt(r, v, n, d) {}
    }
  }

  method CheckEnvelopes(r: Rule, v: View, seen: seq<nat>) returns (out: seq<Defect>)
    requires forall p :: p in seen <==> Displays(v, p)
    ensures forall d :: d in out <==> exists g, k :: EnvelopeAt(r, v, g, k, d)
  {
    out := [];
    for g := 0 to |r.envelopes|
      invariant forall d :: d in out <==> exists h, k :: h < g && EnvelopeAt(r, v, h, k, d)
    {
      ghost var whole := out;
      for n := 0 to |r.envelopes[g]|
        invariant forall d :: d in out <==> d in whole || exists k :: k < n && EnvelopeAt(r, v, g, k, d)
      {
        ghost var before := out;
        if r.envelopes[g][n] != 0 && r.envelopes[g][n] !in seen {
          out := out + [UndisplayedEnvelope(v.variant, g, r.envelopes[g][n])];
        }
        forall d ensures d in out <==> d in before || EnvelopeAt(r, v, g, n, d) {}
      }
    }
  }

  method CheckMacros(r: Rule, v: View, seen: seq<nat>) returns (out: seq<Defect>)
    requires forall p :: p in seen <==> Displays(v, p)
    ensures forall d :: d in out <==> exists g, k :: MacroAt(r, v, g, k, d)
  {
    out := [];
    for g := 0 to |r.macros|
      invariant forall d :: d in out <==> exists h, k :: h < g && MacroAt(r, v, h, k, d)
    {
      ghost var whole := out;
      for n := 0 to |r.macros[g]|
        invariant forall d :: d in out <==> d in whole || exists k :: k < n && MacroAt(r, v, g, k, d)
      {
        ghost var before := out;
        if r.macros[g][n] !in seen {
          out := out + [UndisplayedMacro(v.variant, g, r.macros[g][n])];
        }
        forall d ensures d in out <==> d in before || MacroAt(r, v, g, n, d) {}
      }
    }
  }

  method CheckRouting(params: seq<nat>, r: Rule, v: View) returns (out: seq<Defect>)
    ensures forall d :: d in out <==> exists k :: RoutingAt(params, r, v, k, d)
  {
    out := [];
    for n := 0 to |r.routing|
      invariant forall d :: d in out <==> exists k :: k < n && RoutingAt(params, r, v, k, d)
    {
      ghost var before := out;
      if r.routing[n] !in params {
        out := out + [UndeclaredRouting(v.variant, r.routing[n])];
      }
      forall d ensures d in out <==> d in before || RoutingAt(params, r, v, n, d) {}
    }
  }

  method CheckView(params: seq<nat>, r: Rule, v: View) returns (out: seq<Defect>)
    ensures forall d :: d in out <==> OfView(params, r, v, d)
  {
    var pages, seen := CheckPages(params, v);
    var affordances := CheckAffordances(r, v, seen);
    var envelopes := CheckEnvelopes(r, v, seen);
    var macros := CheckMacros(r, v, seen);
    var routing := CheckRouting(params, r, v);
    out := pages + affordances + envelopes + macros + routing;
  }

  method CheckViews(params: seq<nat>, r: Rule) returns (out: seq<Defect>)
    ensures forall d :: d in out <==> exists i | 0 <= i < |Views(r)| :: OfView(params, r, Views(r)[i], d)
  {
    out := [];
    var views := Views(r);
    for i := 0 to |views|
      invariant forall d :: d in out <==> exists j | 0 <= j < i :: OfView(params, r, views[j], d)
    {
      var found := CheckView(params, r, views[i]);
      out := out + found;
    }
  }

  method CheckReachable(params: seq<nat>, r: Rule) returns (out: seq<Defect>)
    ensures forall d :: d in out <==> exists k :: UnpagedAt(params, r, k, d)
  {
    out := [];
    var views := Views(r);
    for n := 0 to |params|
      invariant forall d :: d in out <==> exists k :: k < n && UnpagedAt(params, r, k, d)
    {
      ghost var before := out;
      if forall i | 0 <= i < |views| :: !Displays(views[i], params[n]) {
        out := out + [Unpaged(params[n])];
      }
      forall d ensures d in out <==> d in before || UnpagedAt(params, r, n, d) {}
    }
  }

  method CheckOverlays(r: Rule) returns (out: seq<Defect>)
    ensures forall d :: d in out <==> exists i, k :: OverlayAt(r, i, k, d)
  {
    out := [];
    for i := 0 to |r.variants|
      invariant forall d :: d in out <==> exists h, k :: h < i && OverlayAt(r, h, k, d)
    {
      var v := r.variants[i];
      var ids: seq<nat> := [];
      ghost var whole := out;
      for n := 0 to |v.overlays|
        invariant |ids| == n && forall j | 0 <= j < n :: ids[j] == v.overlays[j].param
        invariant forall d :: d in out <==> d in whole || exists k :: k < n && OverlayAt(r, i, k, d)
      {
        ghost var before := out;
        var param := v.overlays[n].param;
        if param in ids {
          out := out + [DoubleOverlay(v.name, param)];
        }
        forall d ensures d in out <==> d in before || OverlayAt(r, i, n, d) {
          assert param in ids <==> exists j | 0 <= j < n :: ids[j] == param;
        }
        ids := ids + [param];
      }
    }
  }

  predicate Listed(flaggedIn: map<nat, seq<string>>, param: nat, name: string) {
    param in flaggedIn && name in flaggedIn[param]
  }

  function Enlist(flaggedIn: map<nat, seq<string>>, param: nat, name: string): (listed: map<nat, seq<string>>)
    ensures forall p, n :: Listed(listed, p, n) <==> Listed(flaggedIn, p, n) || (p == param && n == name)
  {
    flaggedIn[param := (if param in flaggedIn then flaggedIn[param] else []) + [name]]
  }

  /** The params flagged anywhere, and for each the names of the variants that flag it. */
  method CollectIdentity(r: Rule) returns (anywhere: seq<nat>, flaggedIn: map<nat, seq<string>>)
    ensures forall p :: p in anywhere <==> exists i | 0 <= i < |r.variants| :: Flags(r.variants[i], p)
    ensures forall p, name :: Listed(flaggedIn, p, name) <==> FlaggedName(r, name, p)
  {
    anywhere, flaggedIn := [], map[];
    for i := 0 to |r.variants|
      invariant forall p :: p in anywhere <==> exists h | 0 <= h < i :: Flags(r.variants[h], p)
      invariant forall p, name :: Listed(flaggedIn, p, name) <==> exists h | 0 <= h < i ::
        r.variants[h].name == name && Flags(r.variants[h], p)
    {
      var v := r.variants[i];
      ghost var any0, in0 := anywhere, flaggedIn;
      for n := 0 to |v.overlays|
        invariant forall p :: p in anywhere <==> p in any0 || Overlay(p, true) in v.overlays[..n]
        invariant forall p, name :: Listed(flaggedIn, p, name) <==>
          Listed(in0, p, name) || (name == v.name && Overlay(p, true) in v.overlays[..n])
      {
        var o := v.overlays[n];
        assert v.overlays[..n + 1] == v.overlays[..n] + [o];
        if o.identity {
          if o.param !in anywhere {
            anywhere := anywhere + [o.param];
          }
          flaggedIn := Enlist(flaggedIn, o.param, v.name);
        }
      }
      assert v.overlays[..|v.overlays|] == v.overlays;
    }
  }

  method CheckIdentity(r: Rule) returns (out: seq<Defect>)
    ensures forall d :: d in out <==> IdentityOf(r, d)
  {
    var anywhere, flaggedIn := CollectIdentity(r);
    out := [];
    for n := 0 to |anywhere|
      invariant forall d :: d in out <==> d.PartialIdentity? && d.param in anywhere[..n] && Unrepeated(r, d.param)
    {
      var param := anywhere[n];
      var flagged := if param in flaggedIn then flaggedIn[param] else [];
      assert anywhere[..n + 1] == anywhere[..n] + [param];
      if exists i | 0 <= i < |r.variants| :: r.variants[i].name !in flagged {
        out := out + [PartialIdentity(param)];
      }
    }
    assert anywhere[..|anywhere|] == anywhere;
  }

  method CheckLabels(params: seq<nat>, r: Rule) returns (out: seq<Defect>)
    ensures forall d :: d in out <==> exists i, k :: LabelAt(params, r, i, k, d)
  {
    out := [];
    for i := 0 to |r.variants|
      invariant forall d :: d in out <==> exists h, k :: h < i && LabelAt(params, r, h, k, d)
    {
      var v := r.variants[i];
      ghost var whole := out;
      for n := 0 to |v.labels|
        invariant forall d :: d in out <==> d in whole || exists k :: k < n && LabelAt(params, r, i, k, d)
      {
        ghost var before := out;
        if v.labels[n] !in params {
          out := out + [UndeclaredLabel(v.name, v.labels[n])];
        }
        forall d ensures d in out <==> d in before || LabelAt(params, r, i, n, d) {}
      }
    }
  }

  // ── Well-formedness ────────────────────────────────────────────────────────

  /** Everything but the identity flags. */
  ghost predicate RefsResolve(params: seq<nat>, r: Rule) {
    && (forall i, k | 0 <= i < |Views(r)| && 0 <= k < |Views(r)[i].pages| :: Views(r)[i].pages[k].param in params)
    && (forall i, k | 0 <= i < |Views(r)| && 0 <= k < |r.affordances| :: Displays(Views(r)[i], r.affordances[k].param))
    && (forall k | 0 <= k < |r.affordances| ::
          r.affordances[k].envelope.Some? ==> r.affordances[k].envelope.value < |r.envelopes|)
    && (forall i, g, k | 0 <= i < |Views(r)| && 0 <= g < |r.envelopes| && 0 <= k < |r.envelopes[g]| ::
          r.envelopes[g][k] != 0 ==> Displays(Views(r)[i], r.envelopes[g][k]))
    && (forall i, g, k | 0 <= i < |Views(r)| && 0 <= g < |r.macros| && 0 <= k < |r.macros[g]| ::
          Displays(Views(r)[i], r.macros[g][k]))
    && (forall k | 0 <= k < |r.routing| :: r.routing[k] in params)
    && (forall k | 0 <= k < |params| :: exists i | 0 <= i < |Views(r)| :: Displays(Views(r)[i], params[k]))
    && (forall i, j, k | 0 <= i < |r.variants| && 0 <= j < k < |r.variants[i].overlays| ::
          r.variants[i].overlays[j].param != r.variants[i].overlays[k].param)
    && (forall i, k | 0 <= i < |r.variants| && 0 <= k < |r.variants[i].labels| :: r.variants[i].labels[k] in params)
  }

  /** A param flagged on one variant is flagged on all. */
  ghost predicate IdentityRepeated(r: Rule) {
    forall i, j, p | 0 <= i < |r.variants| && 0 <= j < |r.variants| && Flags(r.variants[i], p) ::
      Flags(r.variants[j], p)
  }

  ghost predicate WellFormed(params: seq<nat>, r: Rule) {
    RefsResolve(params, r) && IdentityRepeated(r)
  }

  /** The same with identity compared by variant name, which is what the checker compares. */
  ghost predicate WellFormedByName(params: seq<nat>, r: Rule) {
    && RefsResolve(params, r)
    && forall i, j, p | 0 <= i < |r.variants| && 0 <= j < |r.variants| && Flags(r.variants[i], p) ::
         FlaggedName(r, r.variants[j].name, p)
  }

  predicate On(pages: seq<PageRef>, param: nat) {
    exists k | 0 <= k < |pages| :: pages[k].param == param
  }

  /** One list of pages: every param it places is declared, and it shows all that the rule speaks of. */
  ghost predicate PagesServe(params: seq<nat>, r: Rule, pages: seq<PageRef>) {
    && (forall k | 0 <= k < |pages| :: pages[k].param in params)
    && (forall k | 0 <= k < |r.affordances| :: On(pages, r.affordances[k].param))
    && (forall g, k | 0 <= g < |r.envelopes| && 0 <= k < |r.envelopes[g]| ::
          r.envelopes[g][k] != 0 ==> On(pages, r.envelopes[g][k]))
    && (forall g, k | 0 <= g < |r.macros| && 0 <= k < |r.macros[g]| :: On(pages, r.macros[g][k]))
  }

  /** The same as `RefsResolve`, over the rule's own pages and each variant's. */
  ghost predicate RefsServe(params: seq<nat>, r: Rule) {
    && PagesServe(params, r, r.pages)
    && (forall v | v in r.variants :: PagesServe(params, r, v.pages))
    && (forall a | a in r.affordances :: a.envelope.Some? ==> a.envelope.value < |r.envelopes|)
    && (forall p | p in r.routing :: p in params)
    && (forall p | p in params :: On(r.pages, p) || exists v | v in r.variants :: On(v.pages, p))
    && (forall v, j, k | v in r.variants && 0 <= j < k < |v.overlays| :: v.overlays[j].param != v.overlays[k].param)
    && (forall v, p | v in r.variants && p in v.labels :: p in params)
  }

  /** The base view is the rule's pages; each variant is named and has pages of its own. */
  lemma ViewsAre(r: Rule)
    ensures Views(r)[0].variant == None && Views(r)[0].pages == r.pages
    ensures forall i | 0 <= i < |r.variants| ::
      Views(r)[i + 1].variant == Some(r.variants[i].name) && Views(r)[i + 1].pages == r.variants[i].pages
  {
  }

  ghost predicate ViewServes(params: seq<nat>, r: Rule, v: View) {
    && (forall k | 0 <= k < |v.pages| :: v.pages[k].param in params)
    && (forall k | 0 <= k < |r.affordances| :: Displays(v, r.affordances[k].param))
    && (forall g, k | 0 <= g < |r.envelopes| && 0 <= k < |r.envelopes[g]| ::
          r.envelopes[g][k] != 0 ==> Displays(v, r.envelopes[g][k]))
    && (forall g, k | 0 <= g < |r.macros| && 0 <= k < |r.macros[g]| :: Displays(v, r.macros[g][k]))
  }

  lemma ViewServesIff(params: seq<nat>, r: Rule, v: View)
    ensures ViewServes(params, r, v) <==> PagesServe(params, r, v.pages)
  {
    forall p ensures Displays(v, p) <==> On(v.pages, p) {}
  }

  lemma AllViewsServeIff(params: seq<nat>, r: Rule)
    ensures (forall i | 0 <= i < |Views(r)| :: ViewServes(params, r, Views(r)[i]))
      <==> PagesServe(params, r, r.pages) && (forall v | v in r.variants :: PagesServe(params, r, v.pages))
  {
    ViewsAre(r);
    forall i | 0 <= i < |Views(r)| ensures ViewServes(params, r, Views(r)[i]) <==>
      PagesServe(params, r, Views(r)[i].pages) {
      ViewServesIff(params, r, Views(r)[i]);
    }
    if forall i | 0 <= i < |Views(r)| :: ViewServes(params, r, Views(r)[i]) {
      assert ViewServes(params, r, Views(r)[0]);
      forall i | 0 <= i < |r.variants| ensures PagesServe(params, r, r.variants[i].pages) {
        assert ViewServes(params, r, Views(r)[i + 1]);
      }
    } else {
      var i :| 0 <= i < |Views(r)| && !ViewServes(params, r, Views(r)[i]);
      if i > 0 { assert r.variants[i - 1] in r.variants && Views(r)[i].pages == r.variants[i - 1].pages; }
    }
  }

  lemma PagedIff(r: Rule, p: nat)
    ensures (exists i | 0 <= i < |Views(r)| :: Displays(Views(r)[i], p))
      <==> On(r.pages, p) || exists v | v in r.variants :: On(v.pages, p)
  {
    ViewsAre(r);
    if i :| 0 <= i < |Views(r)| && Displays(Views(r)[i], p) {
      assert On(Views(r)[i].pages, p);
      if i > 0 { assert r.variants[i - 1] in r.variants && On(r.variants[i - 1].pages, p); }
    }
    if On(r.pages, p) { assert Displays(Views(r)[0], p); }
    if v :| v in r.variants && On(v.pages, p) {
      var i :| 0 <= i < |r.variants| && r.variants[i] == v;
      assert Displays(Views(r)[i + 1], p);
    }
  }

  lemma LabelsIff(params: seq<nat>, r: Rule)
    ensures (forall v, p | v in r.variants && p in v.labels :: p in params)
      <==> (forall i, k | 0 <= i < |r.variants| && 0 <= k < |r.variants[i].labels| :: r.variants[i].labels[k] in params)
  {
    if i, k :| 0 <= i < |r.variants| && 0 <= k < |r.variants[i].labels| && r.variants[i].labels[k] !in params {
      assert r.variants[i] in r.variants && r.variants[i].labels[k] in r.variants[i].labels;
    }
    if v, p :| v in r.variants && p in v.labels && p !in params {
      var i :| 0 <= i < |r.variants| && r.variants[i] == v;
      var k :| 0 <= k < |v.labels| && v.labels[k] == p;
      assert r.variants[i].labels[k] !in params;
    }
  }

  lemma OverlaysIff(r: Rule)
    ensures (forall v, j, k | v in r.variants && 0 <= j < k < |v.overlays| ::
      v.overlays[j].param != v.overlays[k].param)
      <==> (forall i, j, k | 0 <= i < |r.variants| && 0 <= j < k < |r.variants[i].overlays| ::
              r.variants[i].overlays[j].param != r.variants[i].overlays[k].param)
  {
  }

  /** The part of `RefsResolve` that is about single views. */
  ghost predicate ViewsServe(params: seq<nat>, r: Rule) {
    forall i | 0 <= i < |Views(r)| :: ViewServes(params, r, Views(r)[i])
  }

  lemma ResolveServes(params: seq<nat>, r: Rule)
    requires RefsResolve(params, r)
    ensures ViewsServe(params, r)
  {
    forall i | 0 <= i < |Views(r)| ensures ViewServes(params, r, Views(r)[i]) {}
  }

  lemma ServeResolves(params: seq<nat>, r: Rule)
    requires RefsServe(params, r) && ViewsServe(params, r)
    ensures RefsResolve(params, r)
  {
    LabelsIff(params, r);
    OverlaysIff(r);
    forall k | 0 <= k < |params| ensures exists i | 0 <= i < |Views(r)| :: Displays(Views(r)[i], params[k]) {
      PagedIff(r, params[k]);
    }
    forall i | 0 <= i < |Views(r)| ensures ViewServes(params, r, Views(r)[i]) {}
  }

  lemma RefsServeIff(params: seq<nat>, r: Rule)
    ensures RefsServe(params, r) <==> RefsResolve(params, r)
  {
    AllViewsServeIff(params, r);
    if RefsServe(params, r) {
      ServeResolves(params, r);
    }
    if RefsResolve(params, r) {
      ResolveServes(params, r);
      LabelsIff(params, r);
      OverlaysIff(r);
      forall p | p in params ensures On(r.pages, p) || exists v | v in r.variants :: On(v.pages, p) {
        var k :| 0 <= k < |params| && params[k] == p;
        PagedIff(r, p);
      }
    }
  }

  lemma ViewDefectBreaks(params: seq<nat>, r: Rule, i: nat, d: Defect)
    requires i < |Views(r)| && OfView(params, r, Views(r)[i], d)
    ensures !RefsResolve(params, r)
  {
    var v := Views(r)[i];
    if k :| PageAt(params, v, k, d) {
      assert Views(r)[i].pages[k].param !in params;
    } else if k :| AffordanceAt(r, v, k, d) {
      assert !Displays(v, r.affordances[k].param) || r.affordances[k].envelope.value >= |r.envelopes|;
    } else if g, k :| EnvelopeAt(r, v, g, k, d) {
      assert !Displays(v, r.envelopes[g][k]);
    } else if g, k :| MacroAt(r, v, g, k, d) {
      assert !Displays(v, r.macros[g][k]);
    } else {
      var k :| RoutingAt(params, r, v, k, d);
      assert r.routing[k] !in params;
    }
  }

  lemma VariantDefectBreaks(params: seq<nat>, r: Rule, d: Defect)
    requires (exists k :: UnpagedAt(params, r, k, d)) || (exists i, k :: OverlayAt(r, i, k, d)) || (exists i, k ::
      LabelAt(params, r, i, k, d))
    ensures !RefsResolve(params, r)
  {
    if k :| UnpagedAt(params, r, k, d) {
      assert 0 <= k < |params|;
    } else if i, k :| OverlayAt(r, i, k, d) {
      var j :| 0 <= j < k && r.variants[i].overlays[j].param == r.variants[i].overlays[k].param;
    } else {
      var i, k :| LabelAt(params, r, i, k, d);
      assert r.variants[i].labels[k] !in params;
    }
  }

  lemma DefectBreaks(params: seq<nat>, r: Rule, d: Defect)
    requires HasDefect(Doc(params, Some(r)), d)
    ensures !WellFormedByName(params, r)
  {
    if i :| 0 <= i < |Views(r)| && OfView(params, r, Views(r)[i], d) {
      ViewDefectBreaks(params, r, i, d);
    } else if IdentityOf(r, d) {
      var i :| 0 <= i < |r.variants| && Flags(r.variants[i], d.param);
      var j :| 0 <= j < |r.variants| && !FlaggedName(r, r.variants[j].name, d.param);
    } else {
      VariantDefectBreaks(params, r, d);
    }
  }

  lemma LaterUnresolvedHasDefect(params: seq<nat>, r: Rule)
    requires !RefsResolve(params, r)
    requires forall i, k | 0 <= i < |Views(r)| && 0 <= k < |Views(r)[i].pages| :: Views(r)[i].pages[k].param in params
    requires forall i, k | 0 <= i < |Views(r)| && 0 <= k < |r.affordances| ::
      Displays(Views(r)[i], r.affordances[k].param)
    requires forall k | 0 <= k < |r.affordances| :: r.affordances[k].envelope.Some? ==>
      r.affordances[k].envelope.value < |r.envelopes|
    requires forall i, g, k | 0 <= i < |Views(r)| && 0 <= g < |r.envelopes| && 0 <= k < |r.envelopes[g]| ::
      r.envelopes[g][k] != 0 ==> Displays(Views(r)[i], r.envelopes[g][k])
    requires forall i, g, k | 0 <= i < |Views(r)| && 0 <= g < |r.macros| && 0 <= k < |r.macros[g]| ::
      Displays(Views(r)[i], r.macros[g][k])
    ensures exists d :: HasDefect(Doc(params, Some(r)), d)
  {
    var doc, vs := Doc(params, Some(r)), Views(r);
    if k :| 0 <= k < |r.routing| && r.routing[k] !in params {
      var d := UndeclaredRouting(vs[0].variant, r.routing[k]);
      assert RoutingAt(params, r, vs[0], k, d);
      assert HasDefect(doc, d);
    } else if k :| 0 <= k < |params| && forall i | 0 <= i < |vs| :: !Displays(vs[i], params[k]) {
      assert UnpagedAt(params, r, k, Unpaged(params[k]));
      assert HasDefect(doc, Unpaged(params[k]));
    } else if i, j, k :| 0 <= i < |r.variants| && 0 <= j < k < |r.variants[i].overlays| && r.variants[i].overlays[j].param == r.variants[i].overlays[k].param {
      var d := DoubleOverlay(r.variants[i].name, r.variants[i].overlays[k].param);
      assert OverlayAt(r, i, k, d);
      assert HasDefect(doc, d);
    } else {
      var i, k :| 0 <= i < |r.variants| && 0 <= k < |r.variants[i].labels| && r.variants[i].labels[k] !in params;
      var d := UndeclaredLabel(r.variants[i].name, r.variants[i].labels[k]);
      assert LabelAt(params, r, i, k, d);
      assert HasDefect(doc, d);
    }
  }

  lemma UnresolvedHasDefect(params: seq<nat>, r: Rule)
    requires !RefsResolve(params, r)
    ensures exists d :: HasDefect(Doc(params, Some(r)), d)
  {
    var doc, vs := Doc(params, Some(r)), Views(r);
    if i, k :| 0 <= i < |vs| && 0 <= k < |vs[i].pages| && vs[i].pages[k].param !in params {
      var d := UndeclaredPage(vs[i].variant, vs[i].pages[k]);
      assert PageAt(params, vs[i], k, d);
      assert HasDefect(doc, d);
    } else if i, k :| 0 <= i < |vs| && 0 <= k < |r.affordances| && !Displays(vs[i], r.affordances[k].param) {
      var d := UndisplayedAffordance(vs[i].variant, r.affordances[k].param);
      assert AffordanceAt(r, vs[i], k, d);
      assert HasDefect(doc, d);
    } else if k :| 0 <= k < |r.affordances| && r.affordances[k].envelope.Some? && r.affordances[k].envelope.value >= |r.envelopes| {
      var d := MissingEnvelope(vs[0].variant, r.affordances[k].param, r.affordances[k].envelope.value);
      assert AffordanceAt(r, vs[0], k, d);
      assert HasDefect(doc, d);
    } else if i, g, k :| 0 <= i < |vs| && 0 <= g < |r.envelopes| && 0 <= k < |r.envelopes[g]| && r.envelopes[g][k] != 0 && !Displays(vs[i], r.envelopes[g][k]) {
      var d := UndisplayedEnvelope(vs[i].variant, g, r.envelopes[g][k]);
      assert EnvelopeAt(r, vs[i], g, k, d);
      assert HasDefect(doc, d);
    } else if i, g, k :| 0 <= i < |vs| && 0 <= g < |r.macros| && 0 <= k < |r.macros[g]| && !Displays(vs[i], r.macros[g][k]) {
      var d := UndisplayedMacro(vs[i].variant, g, r.macros[g][k]);
      assert MacroAt(r, vs[i], g, k, d);
      assert HasDefect(doc, d);
    } else {
      LaterUnresolvedHasDefect(params, r);
    }
  }

  /** A declaration has no defect if and only if it is well formed, identity being compared by name. */
  lemma NoDefectsIff(params: seq<nat>, r: Rule)
    ensures (exists d :: HasDefect(Doc(params, Some(r)), d)) <==> !WellFormedByName(params, r)
  {
    forall d | HasDefect(Doc(params, Some(r)), d) ensures !WellFormedByName(params, r) { DefectBreaks(params, r, d); }
    if !RefsResolve(params, r) {
      UnresolvedHasDefect(params, r);
    } else if i, j, p :| 0 <= i < |r.variants| && 0 <= j < |r.variants| && Flags(r.variants[i], p) && !FlaggedName(r, r.variants[j].name, p) {
      assert HasDefect(Doc(params, Some(r)), PartialIdentity(p));
    }
  }

  /** Reports exactly the defects the declaration has. */
  method ValidateView(doc: Doc) returns (out: seq<Defect>)
    ensures forall d :: d in out <==> HasDefect(doc, d)
    ensures out == [] <==> doc.view.None? || WellFormedByName(doc.params, doc.view.value)
    ensures out == [] && doc.view.Some? ==> RefsServe(doc.params, doc.view.value)
  {
    if doc.view.None? {
      return [];
    }
    var r := doc.view.value;
    var views := CheckViews(doc.params, r);
    var reachable := CheckReachable(doc.params, r);
    var overlays := CheckOverlays(r);
    var identity := CheckIdentity(r);
    var labels := CheckLabels(doc.params, r);
    out := views + reachable + overlays + identity + labels;
    NoDefectsIff(doc.params, r);
    RefsServeIff(doc.params, r);
    if out != [] {
      assert out[0] in out;
    }
  }

  // ── When names are enough ──────────────────────────────────────────────────

  ghost predicate DistinctNames(r: Rule) {
    forall i, j | 0 <= i < j < |r.variants| :: r.variants[i].name != r.variants[j].name
  }

  ghost predicate HasNames(r: Rule, names: seq<string>) {
    |r.variants| == |names| && forall i | 0 <= i < |names| :: r.variants[i].name == names[i]
  }

  lemma DistinctNamesAgree(params: seq<nat>, r: Rule)
    requires DistinctNames(r)
    ensures WellFormed(params, r) <==> WellFormedByName(params, r)
  {
    forall j, p | 0 <= j < |r.variants| ensures FlaggedName(r, r.variants[j].name, p) <==> Flags(r.variants[j], p) {
      if FlaggedName(r, r.variants[j].name, p) {
        var i :| 0 <= i < |r.variants| && r.variants[i].name == r.variants[j].name && Flags(r.variants[i], p);
        assert i == j;
      }
    }
  }

  /** A declaration with these names that flags its one param on every variant but the last of two namesakes. */
  function Shadowed(names: seq<string>, hidden: nat): Rule {
    Rule([PageRef(1, "SRC", 0)], [], [], [], [],
      seq(|names|, i requires 0 <= i < |names| => Variant(names[i], [], if i == hidden then [] else [Overlay(1,
        true)], [])))
  }

  lemma ShadowedMissed(names: seq<string>, i: nat, j: nat)
    requires i < j < |names| && names[i] == names[j]
    ensures HasNames(Shadowed(names, j), names)
    ensures WellFormedByName([1], Shadowed(names, j)) && !WellFormed([1], Shadowed(names, j))
  {
    var r := Shadowed(names, j);
    assert Flags(r.variants[i], 1) && !Flags(r.variants[j], 1);
    forall k, p | 0 <= k < |r.variants| && p == 1 ensures FlaggedName(r, r.variants[k].name, p) {
      if k == j { assert r.variants[i].name == r.variants[j].name; } else { assert Flags(r.variants[k], 1); }
    }
    assert Views(r)[0].pages[0].param == 1;
    assert Displays(Views(r)[0], 1);
  }

  /** For given variant names, the checker judges every declaration rightly if and only if the names are distinct. */
  lemma NamesDecide(names: seq<string>)
    ensures (forall params, r | HasNames(r, names) :: WellFormed(params, r) <==> WellFormedByName(params, r))
      <==> (forall i, j | 0 <= i < j < |names| :: names[i] != names[j])
  {
    if i, j :| 0 <= i < j < |names| && names[i] == names[j] {
      ShadowedMissed(names, i, j);
    } else {
      forall params, r | HasNames(r, names) ensures WellFormed(params, r) <==> WellFormedByName(params, r) {
        DistinctNamesAgree(params, r);
      }
    }
  }
}
