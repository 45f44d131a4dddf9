/**
 * The CASL ability built from a resolved user context. Functional permissions
 * become (action, subject) rules and reveal authority becomes field-level
 * `reveal` rules on Member; data scope is not part of the ability.
 *
 * `Can` is an exact lookup in the rule table; CASL's own matching (the wildcard
 * action `manage`, field-less questions about field rules) is not modelled.
 */
module Casl {
  import opened Wrappers
  import opened Permissions
  import Entities

  datatype Action = View | Create | Update | Delete | Export | Manage | Grade | Reveal
  datatype Subject = Dashboard | Member | Organization | System | Course | All

  datatype Rule = Rule(action: Action, subject: Subject, field: Option<string>)
  datatype Ability = Ability(rules: set<Rule>)

  /** The rule buildAbility adds for a granted permission key. */
  function PermissionRule(k: PermissionKey): (r: Rule)
    ensures r.field == None && r.subject != All && r.action != Reveal
  {
    match k
    case DashboardView => Rule(View, Dashboard, None)
    case DashboardExport => Rule(Export, Dashboard, None)
    case MemberView => Rule(View, Member, None)
    case MemberCreate => Rule(Create, Member, None)
    case MemberEdit => Rule(Update, Member, None)
    case MemberDelete => Rule(Delete, Member, None)
    case MemberExport => Rule(Export, Member, None)
    case OrgView => Rule(View, Organization, None)
    case OrgManage => Rule(Manage, Organization, None)
    case SystemConfig => Rule(Manage, System, None)
    case CourseView => Rule(View, Course, None)
    case CourseManage => Rule(Manage, Course, None)
    case CourseGrade => Rule(Grade, Course, None)
  }

  /** Every rule a permission key can give, one per key. */
  const AllPermissionRules: set<Rule> := {
    Rule(View, Dashboard, None), Rule(Export, Dashboard, None),
    Rule(View, Member, None), Rule(Create, Member, None), Rule(Update, Member, None),
    Rule(Delete, Member, None), Rule(Export, Member, None),
    Rule(View, Organization, None), Rule(Manage, Organization, None),
    Rule(Manage, System, None),
    Rule(View, Course, None), Rule(Manage, Course, None), Rule(Grade, Course, None)}

  /** AllPermissionRules holds exactly the rules of the permission keys. */
  lemma AllPermissionRulesAreKeyRules(r: Rule)
    ensures r in AllPermissionRules <==> exists k :: PermissionRule(k) == r
  {
    if r in AllPermissionRules {
      var k :=
        if r == Rule(View, Dashboard, None) then DashboardView
        else if r == Rule(Export, Dashboard, None) then DashboardExport
        else if r == Rule(View, Member, None) then MemberView
        else if r == Rule(Create, Member, None) then MemberCreate
        else if r == Rule(Update, Member, None) then MemberEdit
        else if r == Rule(Delete, Member, None) then MemberDelete
        else if r == Rule(Export, Member, None) then MemberExport
        else if r == Rule(View, Organization, None) then OrgView
        else if r == Rule(Manage, Organization, None) then OrgManage
        else if r == Rule(Manage, System, None) then SystemConfig
        else if r == Rule(View, Course, None) then CourseView
        else if r == Rule(Manage, Course, None) then CourseManage
        else CourseGrade;
      assert PermissionRule(k) == r;
    }
  }

  /** Distinct permission keys become distinct rules. */
  lemma PermissionRuleInjective(k1: PermissionKey, k2: PermissionKey)
    requires PermissionRule(k1) == PermissionRule(k2)
    ensures k1 == k2
  {
  }

  /** The rule buildAbility adds for a granted reveal field. */
  function RevealRule(f: SensitiveField): (r: Rule)
    ensures r.action == Reveal && r.subject == Member && r.field.Some? && FieldFromName(r.field.value) == Some(f)
  {
    Rule(Reveal, Member, Some(FieldName(f)))
  }

  /** A rule of the ability built for `ctx`: the rule of a granted key or of a granted reveal field. */
  predicate IsGrantedRule(ctx: Entities.UserContext, r: Rule)
  {
    (exists k :: Granted(ctx.permissions, k) && r == PermissionRule(k)) ||
    (exists f :: Granted(ctx.revealAuthority, f) && r == RevealRule(f))
  }

  /** buildAbility: one `can` rule per granted key, then one per granted reveal field. */
  method BuildAbility(ctx: Entities.UserContext) returns (ability: Ability)
    ensures forall r :: r in ability.rules <==> IsGrantedRule(ctx, r)
  {
    var rules := AddPermissionRules(ctx.permissions);
    var fieldRules := AddRevealRules(ctx.revealAuthority);
    ability := Ability(rules + fieldRules);
    forall r | r in rules ensures IsGrantedRule(ctx, r) {
      AllPermissionRulesAreKeyRules(r);
    }
  }

  /**
   * The functional-permission section of buildAbility: one `can` line per key of
   * the catalogue, taken here permission group by permission group.
   */
  method AddPermissionRules(p: map<PermissionKey, bool>) returns (rules: set<Rule>)
    ensures forall k :: PermissionRule(k) in rules <==> Granted(p, k)
    ensures rules <= AllPermissionRules
  {
    var dashboardRules := AddDashboardRules(p);
    var memberRules := AddMemberRules(p);
    var organizationRules := AddOrganizationRules(p);
    var systemRules := AddSystemRules(p);
    var courseRules := AddCourseRules(p);
    rules := dashboardRules + memberRules + organizationRules + systemRules + courseRules;
  }

  /** The `can` lines for the dashboard. */
  method AddDashboardRules(p: map<PermissionKey, bool>) returns (rules: set<Rule>)
    ensures forall k :: PermissionRule(k) in rules <==> Granted(p, k) && k in {DashboardView, DashboardExport}
    ensures rules <= AllPermissionRules
  {
    rules := {};
    if Granted(p, DashboardView) { rules := rules + {Rule(View, Dashboard, None)}; }
    if Granted(p, DashboardExport) { rules := rules + {Rule(Export, Dashboard, None)}; }
  }

  /** The `can` lines for member management. */
  method AddMemberRules(p: map<PermissionKey, bool>) returns (rules: set<Rule>)
    ensures forall k :: PermissionRule(k) in rules <==> Granted(p, k) && k in {MemberView, MemberCreate, MemberEdit, MemberDelete, MemberExport}
    ensures rules <= AllPermissionRules
  {
    rules := {};
    if Granted(p, MemberView) { rules := rules + {Rule(View, Member, None)}; }
    if Granted(p, MemberCreate) { rules := rules + {Rule(Create, Member, None)}; }
    if Granted(p, MemberEdit) { rules := rules + {Rule(Update, Member, None)}; }
    if Granted(p, MemberDelete) { rules := rules + {Rule(Delete, Member, None)}; }
    if Granted(p, MemberExport) { rules := rules + {Rule(Export, Member, None)}; }
  }

  /** The `can` lines for the organisation. */
  method AddOrganizationRules(p: map<PermissionKey, bool>) returns (rules: set<Rule>)
    ensures forall k :: PermissionRule(k) in rules <==> Granted(p, k) && k in {OrgView, OrgManage}
    ensures rules <= AllPermissionRules
  {
    rules := {};
    if Granted(p, OrgView) { rules := rules + {Rule(View, Organization, None)}; }
    if Granted(p, OrgManage) { rules := rules + {Rule(Manage, Organization, None)}; }
  }

  /** The `can` lines for system configuration. */
  method AddSystemRules(p: map<PermissionKey, bool>) returns (rules: set<Rule>)
    ensures forall k :: PermissionRule(k) in rules <==> Granted(p, k) && k in {SystemConfig}
    ensures rules <= AllPermissionRules
  {
    rules := {};
    if Granted(p, SystemConfig) { rules := rules + {Rule(Manage, System, None)}; }
  }

  /** The `can` lines for courses. */
  method AddCourseRules(p: map<PermissionKey, bool>) returns (rules: set<Rule>)
    ensures forall k :: PermissionRule(k) in rules <==> Granted(p, k) && k in {CourseView, CourseManage, CourseGrade}
    ensures rules <= AllPermissionRules
  {
    rules := {};
    if Granted(p, CourseView) { rules := rules + {Rule(View, Course, None)}; }
    if Granted(p, CourseManage) { rules := rules + {Rule(Manage, Course, None)}; }
    if Granted(p, CourseGrade) { rules := rules + {Rule(Grade, Course, None)}; }
  }

  /** The reveal-authority section of buildAbility. */
  method AddRevealRules(ra: map<SensitiveField, bool>) returns (rules: set<Rule>)
    ensures forall r :: r in rules <==> exists f :: Granted(ra, f) && r == RevealRule(f)
  {
    rules := {};
    if Granted(ra, Mobile) { rules := rules + {Rule(Reveal, Member, Some("mobile"))}; }
    if Granted(ra, Email) { rules := rules + {Rule(Reveal, Member, Some("email"))}; }
    if Granted(ra, LineId) { rules := rules + {Rule(Reveal, Member, Some("lineId"))}; }
    if Granted(ra, Address) { rules := rules + {Rule(Reveal, Member, Some("address"))}; }
    if Granted(ra, EmergencyContactPhone) {
      rules := rules + {Rule(Reveal, Member, Some("emergencyContactPhone"))};
    }
  }

  /** `ability.can(action, subject, field)`: the rule table holds exactly that rule. */
  predicate Can(ability: Ability, action: Action, subject: Subject, field: Option<string>)
  {
    Rule(action, subject, field) in ability.rules
  }

  // ---------------------------------------------------------------------------
  // What the built ability allows
  // ---------------------------------------------------------------------------

  /** Each permission key's own (action, subject) is allowed exactly when the key is granted. */
  lemma CanPermissionIffGranted(ctx: Entities.UserContext, ability: Ability, k: PermissionKey)
    requires forall r :: r in ability.rules <==> IsGrantedRule(ctx, r)
    ensures Can(ability, PermissionRule(k).action, PermissionRule(k).subject, None) <==>
      Granted(ctx.permissions, k)
  {
    if Can(ability, PermissionRule(k).action, PermissionRule(k).subject, None) {
      assert IsGrantedRule(ctx, PermissionRule(k));
      assert forall f :: RevealRule(f) != PermissionRule(k);
      var k' :| Granted(ctx.permissions, k') && PermissionRule(k) == PermissionRule(k');
      PermissionRuleInjective(k, k');
    }
    if Granted(ctx.permissions, k) {
      assert IsGrantedRule(ctx, PermissionRule(k));
    }
  }

  /**
   * A field of a member may be revealed exactly when the context holds reveal
   * authority for it; a name that is not a sensitive field can never be revealed.
   */
  lemma CanRevealIffAuthority(ctx: Entities.UserContext, ability: Ability, name: string)
    requires forall r :: r in ability.rules <==> IsGrantedRule(ctx, r)
    ensures Can(ability, Reveal, Member, Some(name)) <==>
      FieldFromName(name).Some? && Granted(ctx.revealAuthority, FieldFromName(name).value)
  {
    var r := Rule(Reveal, Member, Some(name));
    if Can(ability, Reveal, Member, Some(name)) {
      assert IsGrantedRule(ctx, r);
      assert forall k :: PermissionRule(k) != r;
      var f :| Granted(ctx.revealAuthority, f) && r == RevealRule(f);
      FieldNameRoundTrip(f);
    }
    if FieldFromName(name).Some? && Granted(ctx.revealAuthority, FieldFromName(name).value) {
      var f := FieldFromName(name).value;
      assert IsGrantedRule(ctx, RevealRule(f));
    }
  }

  /**
   * Default deny: anything allowed is either the (action, subject) of a granted
   * key, asked without a field, or `reveal` on Member for a granted sensitive field.
   */
  lemma OnlyGrantedRulesAllow(ctx: Entities.UserContext, ability: Ability,
                              action: Action, subject: Subject, field: Option<string>)
    requires forall r :: r in ability.rules <==> IsGrantedRule(ctx, r)
    requires Can(ability, action, subject, field)
    ensures action != Reveal ==> (field == None &&
      exists k :: Granted(ctx.permissions, k) && PermissionRule(k) == Rule(action, subject, None))
    ensures action == Reveal ==> (subject == Member && field.Some? &&
      exists f :: Granted(ctx.revealAuthority, f) && FieldName(f) == field.value)
  {
    var r := Rule(action, subject, field);
    assert IsGrantedRule(ctx, r);
    if action != Reveal {
      assert forall f :: RevealRule(f) != r;
    } else {
      assert forall k :: PermissionRule(k) != r;
    }
  }

  /** The ability grants nothing for a context that grants nothing, whatever its scope. */
  lemma NothingGrantedAllowsNothing(ctx: Entities.UserContext, ability: Ability)
    requires forall r :: r in ability.rules <==> IsGrantedRule(ctx, r)
    requires forall k :: !Granted(ctx.permissions, k)
    requires forall f :: !Granted(ctx.revealAuthority, f)
    ensures forall a, s, f :: !Can(ability, a, s, f)
  {
    forall a, s, f ensures !Can(ability, a, s, f) {
      assert !IsGrantedRule(ctx, Rule(a, s, f));
    }
  }
}
