/**
 * The tip generator. The checks are indexed by rule id (a later check with the
 * same id replaces an earlier one); then a fixed list of triggers is tried in
 * order (critical, high, medium, low), each adding its tip when its condition
 * holds of the indexed check, and a single congratulatory tip is added when no
 * trigger fired.
 */
module Tips {
  import opened Wrappers
  import opened Rules
  import S = Signals

  datatype Priority = Crit | High | Med | Low

  /** Which piece of advice a tip gives; two of them quote a signal. */
  datatype Topic =
    | EnableHttps | AddTitle | WriteDescription | AddH1
    | AddViewport | CanonicalUrls | CompleteOpenGraph | FixAltTexts(missing: nat)
    | AddStructuredData | AddTwitterCard | ExpandContent(wordCount: nat)
    | ImproveHeadings | DeclareLanguage | AddLazyLoading
    | Outstanding

  datatype Tip = Tip(priority: Priority, topic: Topic, impact: nat)

  /** The fallback tip, emitted when no trigger fires. */
  const Congratulations := Tip(Low, Outstanding, 20)

  // --------------------------------------------------------- looking up checks

  /** The check `byId[id]` holds once every check has been indexed: the last one with that id. */
  function Lookup(checks: seq<Check>, id: RuleId): (r: Option<Check>)
    ensures r.Some? ==> r.value.id == id
  {
    if checks == [] then None
    else if checks[|checks| - 1].id == id then Some(checks[|checks| - 1])
    else
      var init := checks[..|checks| - 1];
      assert checks == init + [checks[|checks| - 1]];
      Lookup(init, id)
  }

  /**
   * Later checks overwrite earlier ones in `byId`: the lookup finds nothing
   * exactly when no check has the id, and otherwise the last check that has it.
   */
  lemma {:induction false} LookupIsLast(checks: seq<Check>, id: RuleId)
    ensures Lookup(checks, id).None? <==> forall i :: 0 <= i < |checks| ==> checks[i].id != id
    ensures Lookup(checks, id).Some? ==>
      exists i :: 0 <= i < |checks| && checks[i] == Lookup(checks, id).value
                  && forall j :: i < j < |checks| ==> checks[j].id != id
  {
    if checks != [] {
      var last := |checks| - 1;
      var init := checks[..last];
      LookupIsLast(init, id);
      if checks[last].id != id {
        assert forall i :: 0 <= i < last ==> init[i] == checks[i];
      }
    }
  }

  function Get(byId: map<RuleId, Check>, id: RuleId): Option<Check>
  {
    if id in byId then Some(byId[id]) else None
  }

  /** `byId[id]?.status`: the status, or nothing when no check has that id. */
  function StatusOf(c: Option<Check>): Option<Status>
  {
    match c
    case Some(check) => Some(check.status)
    case None => None
  }

  // --------------------------------------------------------- the trigger table

  /** The four forms of condition the triggers use; a missing check is neither failing nor ok. */
  datatype Condition = IsFail | NotOk | WarnOrFail | IsWarn

  predicate Holds(when: Condition, s: Option<Status>)
  {
    match when
    case IsFail => s == Some(Fail)
    case NotOk => s != Some(Ok)
    case WarnOrFail => s == Some(Warn) || s == Some(Fail)
    case IsWarn => s == Some(Warn)
  }

  datatype Trigger = Trigger(id: RuleId, when: Condition, tip: Tip)

  predicate Fires(t: Trigger, checks: seq<Check>)
  {
    Holds(t.when, StatusOf(Lookup(checks, t.id)))
  }

  function CritTriggers(): seq<Trigger>
  {
    [Trigger(Https, IsFail, Tip(Crit, EnableHttps, 95)),
     Trigger(Title, IsFail, Tip(Crit, AddTitle, 95)),
     Trigger(Desc, IsFail, Tip(Crit, WriteDescription, 85)),
     Trigger(H1, IsFail, Tip(Crit, AddH1, 80))]
  }

  function HighTriggers(seo: S.PageSignals): seq<Trigger>
  {
    [Trigger(Viewport, IsFail, Tip(High, AddViewport, 75)),
     Trigger(Canonical, NotOk, Tip(High, CanonicalUrls, 70)),
     Trigger(Og, NotOk, Tip(High, CompleteOpenGraph, 65)),
     Trigger(Img, WarnOrFail, Tip(High, FixAltTexts(seo.images.withoutAlt), 65))]
  }

  function MedTriggers(seo: S.PageSignals): seq<Trigger>
  {
    [Trigger(Schema, NotOk, Tip(Med, AddStructuredData, 60)),
     Trigger(Twitter, NotOk, Tip(Med, AddTwitterCard, 35)),
     Trigger(Content, NotOk, Tip(Med, ExpandContent(seo.content.wordCount), 55))]
  }

  function LowTriggers(): seq<Trigger>
  {
    [Trigger(H2, NotOk, Tip(Low, ImproveHeadings, 40)),
     Trigger(Lang, NotOk, Tip(Low, DeclareLanguage, 45)),
     Trigger(Lazy, IsWarn, Tip(Low, AddLazyLoading, 40))]
  }

  /** Every trigger, in the order the tips are authored. */
  function Triggers(seo: S.PageSignals): seq<Trigger>
  {
    CritTriggers() + HighTriggers(seo) + MedTriggers(seo) + LowTriggers()
  }

  /** The tips of the triggers that fire, in table order. */
  function Fired(ts: seq<Trigger>, checks: seq<Check>): seq<Tip>
  {
    if ts == [] then []
    else (if Fires(ts[0], checks) then [ts[0].tip] else []) + Fired(ts[1..], checks)
  }

  /** What `generateTips` returns. */
  function TipsFor(seo: S.PageSignals, checks: seq<Check>): (r: seq<Tip>)
    ensures |r| >= 1
  {
    var fired := Fired(Triggers(seo), checks);
    if fired == [] then [Congratulations] else fired
  }

  // ------------------------------------------------------- the imperative code

  /** `checks.forEach(c => byId[c.id] = c)` */
  method IndexById(checks: seq<Check>) returns (byId: map<RuleId, Check>)
    ensures forall id :: Get(byId, id) == Lookup(checks, id)
  {
    byId := map[];
    for i := 0 to |checks|
      invariant forall id :: Get(byId, id) == Lookup(checks[..i], id)
    {
      assert checks[..i + 1][..i] == checks[..i];
      byId := byId[checks[i].id := checks[i]];
    }
    assert checks[..|checks|] == checks;
  }

  /**
   * `generateTips`: index the checks by id, then push the tip of every trigger
   * whose condition holds, and the congratulatory tip if none did.
   */
  method GenerateTips(seo: S.PageSignals, checks: seq<Check>) returns (tips: seq<Tip>)
    ensures tips == TipsFor(seo, checks)
  {
    var byId := IndexById(checks);
    var crit := CritTips(byId, checks);
    var high := HighTips(seo, byId, checks);
    var med := MedTips(seo, byId, checks);
    var low := LowTips(byId, checks);
    tips := crit + high + med + low;
    TipsForGroups(seo, checks);
    if |tips| == 0 { tips := [Congratulations]; }
  }

  /** The four critical triggers: HTTPS, title, description and H1, each on a failing check. */
  method CritTips(byId: map<RuleId, Check>, ghost checks: seq<Check>) returns (tips: seq<Tip>)
    requires forall id :: Get(byId, id) == Lookup(checks, id)
    ensures tips == Fired(CritTriggers(), checks)
  {
    FiredCrit(checks);
    tips := [];
    if StatusOf(Get(byId, Https)) == Some(Fail) { tips := tips + [Tip(Crit, EnableHttps, 95)]; }
    if StatusOf(Get(byId, Title)) == Some(Fail) { tips := tips + [Tip(Crit, AddTitle, 95)]; }
    if StatusOf(Get(byId, Desc)) == Some(Fail) { tips := tips + [Tip(Crit, WriteDescription, 85)]; }
    if StatusOf(Get(byId, H1)) == Some(Fail) { tips := tips + [Tip(Crit, AddH1, 80)]; }
  }

  /** The high triggers: viewport on fail, canonical and Open Graph unless ok, images on warn or fail. */
  method HighTips(seo: S.PageSignals, byId: map<RuleId, Check>, ghost checks: seq<Check>)
    returns (tips: seq<Tip>)
    requires forall id :: Get(byId, id) == Lookup(checks, id)
    ensures tips == Fired(HighTriggers(seo), checks)
  {
    FiredHigh(seo, checks);
    tips := [];
    if StatusOf(Get(byId, Viewport)) == Some(Fail) { tips := tips + [Tip(High, AddViewport, 75)]; }
    if StatusOf(Get(byId, Canonical)) != Some(Ok) { tips := tips + [Tip(High, CanonicalUrls, 70)]; }
    if StatusOf(Get(byId, Og)) != Some(Ok) { tips := tips + [Tip(High, CompleteOpenGraph, 65)]; }
    if StatusOf(Get(byId, Img)) == Some(Warn) || StatusOf(Get(byId, Img)) == Some(Fail) {
      tips := tips + [Tip(High, FixAltTexts(seo.images.withoutAlt), 65)];
    }
  }

  /** The medium triggers: structured data, Twitter card and content length, each unless ok. */
  method MedTips(seo: S.PageSignals, byId: map<RuleId, Check>, ghost checks: seq<Check>)
    returns (tips: seq<Tip>)
    requires forall id :: Get(byId, id) == Lookup(checks, id)
    ensures tips == Fired(MedTriggers(seo), checks)
  {
    FiredMed(seo, checks);
    tips := [];
    if StatusOf(Get(byId, Schema)) != Some(Ok) { tips := tips + [Tip(Med, AddStructuredData, 60)]; }
    if StatusOf(Get(byId, Twitter)) != Some(Ok) { tips := tips + [Tip(Med, AddTwitterCard, 35)]; }
    if StatusOf(Get(byId, Content)) != Some(Ok) {
      tips := tips + [Tip(Med, ExpandContent(seo.content.wordCount), 55)];
    }
  }

  /** The low triggers: headings and language unless ok, lazy loading only on a warning. */
  method LowTips(byId: map<RuleId, Check>, ghost checks: seq<Check>) returns (tips: seq<Tip>)
    requires forall id :: Get(byId, id) == Lookup(checks, id)
    ensures tips == Fired(LowTriggers(), checks)
  {
    FiredLow(checks);
    tips := [];
    if StatusOf(Get(byId, H2)) != Some(Ok) { tips := tips + [Tip(Low, ImproveHeadings, 40)]; }
    if StatusOf(Get(byId, Lang)) != Some(Ok) { tips := tips + [Tip(Low, DeclareLanguage, 45)]; }
    if StatusOf(Get(byId, Lazy)) == Some(Warn) { tips := tips + [Tip(Low, AddLazyLoading, 40)]; }
  }

  // ---------------------------------------------- unfolding the trigger groups

  function Opt(b: bool, t: Tip): seq<Tip>
  {
    if b then [t] else []
  }

  lemma FiredCrit(checks: seq<Check>)
    ensures Fired(CritTriggers(), checks)
         == Opt(StatusOf(Lookup(checks, Https)) == Some(Fail), Tip(Crit, EnableHttps, 95))
          + Opt(StatusOf(Lookup(checks, Title)) == Some(Fail), Tip(Crit, AddTitle, 95))
          + Opt(StatusOf(Lookup(checks, Desc)) == Some(Fail), Tip(Crit, WriteDescription, 85))
          + Opt(StatusOf(Lookup(checks, H1)) == Some(Fail), Tip(Crit, AddH1, 80))
  {
    var ts := CritTriggers();
    FiredFour(ts[0], ts[1], ts[2], ts[3], checks);
  }

  lemma FiredHigh(seo: S.PageSignals, checks: seq<Check>)
    ensures Fired(HighTriggers(seo), checks)
         == Opt(StatusOf(Lookup(checks, Viewport)) == Some(Fail), Tip(High, AddViewport, 75))
          + Opt(StatusOf(Lookup(checks, Canonical)) != Some(Ok), Tip(High, CanonicalUrls, 70))
          + Opt(StatusOf(Lookup(checks, Og)) != Some(Ok), Tip(High, CompleteOpenGraph, 65))
          + Opt(StatusOf(Lookup(checks, Img)) == Some(Warn) || StatusOf(Lookup(checks, Img)) == Some(Fail),
                Tip(High, FixAltTexts(seo.images.withoutAlt), 65))
  {
    var ts := HighTriggers(seo);
    FiredFour(ts[0], ts[1], ts[2], ts[3], checks);
  }

  lemma FiredMed(seo: S.PageSignals, checks: seq<Check>)
    ensures Fired(MedTriggers(seo), checks)
         == Opt(StatusOf(Lookup(checks, Schema)) != Some(Ok), Tip(Med, AddStructuredData, 60))
          + Opt(StatusOf(Lookup(checks, Twitter)) != Some(Ok), Tip(Med, AddTwitterCard, 35))
          + Opt(StatusOf(Lookup(checks, Content)) != Some(Ok), Tip(Med, ExpandContent(seo.content.wordCount), 55))
  {
    var ts := MedTriggers(seo);
    FiredThree(ts[0], ts[1], ts[2], checks);
  }

  lemma FiredLow(checks: seq<Check>)
    ensures Fired(LowTriggers(), checks)
         == Opt(StatusOf(Lookup(checks, H2)) != Some(Ok), Tip(Low, ImproveHeadings, 40))
          + Opt(StatusOf(Lookup(checks, Lang)) != Some(Ok), Tip(Low, DeclareLanguage, 45))
          + Opt(StatusOf(Lookup(checks, Lazy)) == Some(Warn), Tip(Low, AddLazyLoading, 40))
  {
    var ts := LowTriggers();
    FiredThree(ts[0], ts[1], ts[2], checks);
  }

  lemma FiredThree(t1: Trigger, t2: Trigger, t3: Trigger, checks: seq<Check>)
    ensures Fired([t1, t2, t3], checks)
         == Opt(Fires(t1, checks), t1.tip) + Opt(Fires(t2, checks), t2.tip) + Opt(Fires(t3, checks), t3.tip)
  {
    assert [t1, t2, t3][1..] == [t2, t3] && [t2, t3][1..] == [t3] && [t3][1..] == [];
    assert Fired([t3], checks) == Opt(Fires(t3, checks), t3.tip) + Fired([], checks);
    assert Fired([t2, t3], checks) == Opt(Fires(t2, checks), t2.tip) + Fired([t3], checks);
  }

  lemma FiredFour(t1: Trigger, t2: Trigger, t3: Trigger, t4: Trigger, checks: seq<Check>)
    ensures Fired([t1, t2, t3, t4], checks)
         == Opt(Fires(t1, checks), t1.tip) + Opt(Fires(t2, checks), t2.tip)
          + Opt(Fires(t3, checks), t3.tip) + Opt(Fires(t4, checks), t4.tip)
  {
    assert [t1, t2, t3, t4][1..] == [t2, t3, t4];
    FiredThree(t2, t3, t4, checks);
  }

  /** `TipsFor` in terms of the four groups, as `GenerateTips` computes it. */
  lemma TipsForGroups(seo: S.PageSignals, checks: seq<Check>)
    ensures var fired := Fired(CritTriggers(), checks) + Fired(HighTriggers(seo), checks)
                       + Fired(MedTriggers(seo), checks) + Fired(LowTriggers(), checks);
            TipsFor(seo, checks) == if |fired| == 0 then [Congratulations] else fired
  {
    FiredGroups(seo, checks);
  }

  /** The whole table fires group by group. */
  lemma FiredGroups(seo: S.PageSignals, checks: seq<Check>)
    ensures Fired(Triggers(seo), checks)
         == Fired(CritTriggers(), checks) + Fired(HighTriggers(seo), checks)
          + Fired(MedTriggers(seo), checks) + Fired(LowTriggers(), checks)
  {
    var c, h, m, l := CritTriggers(), HighTriggers(seo), MedTriggers(seo), LowTriggers();
    FiredAppend(c + h + m, l, checks);
    FiredAppend(c + h, m, checks);
    FiredAppend(c, h, checks);
  }

  lemma {:induction false} FiredAppend(a: seq<Trigger>, b: seq<Trigger>, checks: seq<Check>)
    ensures Fired(a + b, checks) == Fired(a, checks) + Fired(b, checks)
  {
    if a == [] {
      assert a + b == b;
    } else {
      assert (a + b)[0] == a[0] && (a + b)[1..] == a[1..] + b;
      FiredAppend(a[1..], b, checks);
    }
  }

  // ------------------------------------------------------- what the tips mean

  /** A tip is emitted exactly when some trigger carrying it fires. */
  lemma {:induction false} FiredMember(ts: seq<Trigger>, checks: seq<Check>, tip: Tip)
    ensures tip in Fired(ts, checks) <==> exists i :: 0 <= i < |ts| && ts[i].tip == tip && Fires(ts[i], checks)
  {
    if ts != [] {
      FiredMember(ts[1..], checks, tip);
      if tip in Fired(ts[1..], checks) {
        var i :| 0 <= i < |ts[1..]| && ts[1..][i].tip == tip && Fires(ts[1..][i], checks);
        assert ts[i + 1] == ts[1..][i];
      }
      if exists i :: 0 <= i < |ts| && ts[i].tip == tip && Fires(ts[i], checks) {
        var i :| 0 <= i < |ts| && ts[i].tip == tip && Fires(ts[i], checks);
        if i > 0 {
          assert ts[1..][i - 1] == ts[i];
        }
      }
    }
  }

  /** Nothing is emitted exactly when no trigger fires. */
  lemma FiredEmpty(ts: seq<Trigger>, checks: seq<Check>)
    ensures Fired(ts, checks) == [] <==> forall i :: 0 <= i < |ts| ==> !Fires(ts[i], checks)
  {
    var fired := Fired(ts, checks);
    if fired != [] {
      FiredMember(ts, checks, fired[0]);
    }
    forall i | 0 <= i < |ts| && Fires(ts[i], checks)
      ensures fired != []
    {
      FiredMember(ts, checks, ts[i].tip);
    }
  }

  function PriorityRank(p: Priority): nat
  {
    match p
    case Crit => 0
    case High => 1
    case Med => 2
    case Low => 3
  }

  predicate ByPriority(tips: seq<Tip>)
  {
    forall i, j :: 0 <= i < j < |tips| ==> PriorityRank(tips[i].priority) <= PriorityRank(tips[j].priority)
  }

  /** Emitting a subsequence keeps the table's priority order. */
  lemma {:induction false} FiredByPriority(ts: seq<Trigger>, checks: seq<Check>)
    requires forall i, j :: 0 <= i < j < |ts| ==> PriorityRank(ts[i].tip.priority) <= PriorityRank(ts[j].tip.priority)
    ensures ByPriority(Fired(ts, checks))
  {
    if ts != [] {
      var rest := Fired(ts[1..], checks);
      FiredByPriority(ts[1..], checks);
      forall k | 0 <= k < |rest|
        ensures PriorityRank(ts[0].tip.priority) <= PriorityRank(rest[k].priority)
      {
        FiredMember(ts[1..], checks, rest[k]);
        var i :| 0 <= i < |ts[1..]| && ts[1..][i].tip == rest[k] && Fires(ts[1..][i], checks);
        assert ts[1..][i] == ts[i + 1];
      }
      if Fires(ts[0], checks) {
        var all := [ts[0].tip] + rest;
        forall i, j | 0 <= i < j < |all|
          ensures PriorityRank(all[i].priority) <= PriorityRank(all[j].priority)
        {
          assert all[j] == rest[j - 1];
          if i > 0 {
            assert all[i] == rest[i - 1];
          }
        }
      }
    }
  }

  /** The position of each topic in the trigger table; the fallback comes last. */
  function TopicRank(t: Topic): nat
  {
    match t
    case EnableHttps => 0
    case AddTitle => 1
    case WriteDescription => 2
    case AddH1 => 3
    case AddViewport => 4
    case CanonicalUrls => 5
    case CompleteOpenGraph => 6
    case FixAltTexts(_) => 7
    case AddStructuredData => 8
    case AddTwitterCard => 9
    case ExpandContent(_) => 10
    case ImproveHeadings => 11
    case DeclareLanguage => 12
    case AddLazyLoading => 13
    case Outstanding => 14
  }

  /** The priority band of the trigger at position `i`. */
  function Band(i: nat): nat
  {
    if i < 4 then 0 else if i < 8 then 1 else if i < 11 then 2 else 3
  }

  /** Fourteen triggers, each with its own topic, in four priority bands. */
  lemma TriggerLayout(seo: S.PageSignals)
    ensures |Triggers(seo)| == 14
    ensures forall i :: 0 <= i < 14 ==> TopicRank(Triggers(seo)[i].tip.topic) == i
    ensures forall i :: 0 <= i < 14 ==> PriorityRank(Triggers(seo)[i].tip.priority) == Band(i)
  {
    var c, h, m, l := CritTriggers(), HighTriggers(seo), MedTriggers(seo), LowTriggers();
    assert Triggers(seo) == [c[0], c[1], c[2], c[3], h[0], h[1], h[2], h[3], m[0], m[1], m[2], l[0], l[1], l[2]];
  }

  /** The tips come in priority order: critical, then high, medium and low. */
  lemma TipsByPriority(seo: S.PageSignals, checks: seq<Check>)
    ensures ByPriority(TipsFor(seo, checks))
  {
    TriggerLayout(seo);
    FiredByPriority(Triggers(seo), checks);
  }

  /** Emitting a subsequence keeps the table's order of topics. */
  lemma {:induction false} FiredInOrder(ts: seq<Trigger>, checks: seq<Check>)
    requires forall i, j :: 0 <= i < j < |ts| ==> TopicRank(ts[i].tip.topic) < TopicRank(ts[j].tip.topic)
    ensures var fired := Fired(ts, checks);
      forall i, j :: 0 <= i < j < |fired| ==> TopicRank(fired[i].topic) < TopicRank(fired[j].topic)
  {
    if ts != [] {
      var rest := Fired(ts[1..], checks);
      FiredInOrder(ts[1..], checks);
      forall k | 0 <= k < |rest|
        ensures TopicRank(ts[0].tip.topic) < TopicRank(rest[k].topic)
      {
        FiredMember(ts[1..], checks, rest[k]);
        var i :| 0 <= i < |ts[1..]| && ts[1..][i].tip == rest[k] && Fires(ts[1..][i], checks);
        assert ts[1..][i] == ts[i + 1];
      }
      if Fires(ts[0], checks) {
        var all := [ts[0].tip] + rest;
        forall i, j | 0 <= i < j < |all|
          ensures TopicRank(all[i].topic) < TopicRank(all[j].topic)
        {
          assert all[j] == rest[j - 1];
          if i > 0 {
            assert all[i] == rest[i - 1];
          }
        }
      }
    }
  }

  /** The tips follow the trigger table, so no advice is given twice. */
  lemma TipsInTableOrder(seo: S.PageSignals, checks: seq<Check>)
    ensures var tips := TipsFor(seo, checks);
      forall i, j :: 0 <= i < j < |tips| ==> TopicRank(tips[i].topic) < TopicRank(tips[j].topic)
  {
    var ts := Triggers(seo);
    TriggerLayout(seo);
    assert forall i, j :: 0 <= i < j < |ts| ==> TopicRank(ts[i].tip.topic) < TopicRank(ts[j].tip.topic);
    FiredInOrder(ts, checks);
    var tips := TipsFor(seo, checks);
    if Fired(ts, checks) == [] {
      assert tips == [Congratulations];
    } else {
      assert tips == Fired(ts, checks);
    }
  }

  /** The congratulatory tip is emitted exactly when no trigger fires, and then alone. */
  lemma FallbackIff(seo: S.PageSignals, checks: seq<Check>)
    ensures Congratulations in TipsFor(seo, checks)
        <==> forall i :: 0 <= i < |Triggers(seo)| ==> !Fires(Triggers(seo)[i], checks)
    ensures Congratulations in TipsFor(seo, checks) ==> TipsFor(seo, checks) == [Congratulations]
  {
    var ts := Triggers(seo);
    TriggerLayout(seo);
    FiredEmpty(ts, checks);
    FiredMember(ts, checks, Congratulations);
  }

  /** The tip of the trigger at position `k` is emitted exactly when that trigger fires. */
  lemma TipIffFires(seo: S.PageSignals, checks: seq<Check>, k: nat)
    requires k < |Triggers(seo)|
    ensures Triggers(seo)[k].tip in TipsFor(seo, checks) <==> Fires(Triggers(seo)[k], checks)
  {
    var ts := Triggers(seo);
    TriggerLayout(seo);
    FiredMember(ts, checks, ts[k].tip);
    FiredEmpty(ts, checks);
  }

  /** The trigger table written out. */
  lemma TriggersListed(seo: S.PageSignals)
    ensures Triggers(seo) ==
      [Trigger(Https, IsFail, Tip(Crit, EnableHttps, 95)),
       Trigger(Title, IsFail, Tip(Crit, AddTitle, 95)),
       Trigger(Desc, IsFail, Tip(Crit, WriteDescription, 85)),
       Trigger(H1, IsFail, Tip(Crit, AddH1, 80)),
       Trigger(Viewport, IsFail, Tip(High, AddViewport, 75)),
       Trigger(Canonical, NotOk, Tip(High, CanonicalUrls, 70)),
       Trigger(Og, NotOk, Tip(High, CompleteOpenGraph, 65)),
       Trigger(Img, WarnOrFail, Tip(High, FixAltTexts(seo.images.withoutAlt), 65)),
       Trigger(Schema, NotOk, Tip(Med, AddStructuredData, 60)),
       Trigger(Twitter, NotOk, Tip(Med, AddTwitterCard, 35)),
       Trigger(Content, NotOk, Tip(Med, ExpandContent(seo.content.wordCount), 55)),
       Trigger(H2, NotOk, Tip(Low, ImproveHeadings, 40)),
       Trigger(Lang, NotOk, Tip(Low, DeclareLanguage, 45)),
       Trigger(Lazy, IsWarn, Tip(Low, AddLazyLoading, 40))]
  {
  }

  /** The critical tips: each exactly when its check fails. */
  lemma CritTipsIff(seo: S.PageSignals, checks: seq<Check>)
    ensures Tip(Crit, EnableHttps, 95) in TipsFor(seo, checks) <==> StatusOf(Lookup(checks, Https)) == Some(Fail)
    ensures Tip(Crit, AddTitle, 95) in TipsFor(seo, checks) <==> StatusOf(Lookup(checks, Title)) == Some(Fail)
    ensures Tip(Crit, WriteDescription, 85) in TipsFor(seo, checks) <==> StatusOf(Lookup(checks, Desc)) == Some(Fail)
    ensures Tip(Crit, AddH1, 80) in TipsFor(seo, checks) <==> StatusOf(Lookup(checks, H1)) == Some(Fail)
  {
    TriggersListed(seo);
    TipIffFires(seo, checks, 0);
    TipIffFires(seo, checks, 1);
    TipIffFires(seo, checks, 2);
    TipIffFires(seo, checks, 3);
  }

  /** The high tips: viewport on a failure, canonical and Open Graph unless ok (a missing check is not ok), images on a warning or a failure. */
  lemma HighTipsIff(seo: S.PageSignals, checks: seq<Check>)
    ensures Tip(High, AddViewport, 75) in TipsFor(seo, checks) <==> StatusOf(Lookup(checks, Viewport)) == Some(Fail)
    ensures Tip(High, CanonicalUrls, 70) in TipsFor(seo, checks) <==> StatusOf(Lookup(checks, Canonical)) != Some(Ok)
    ensures Tip(High, CompleteOpenGraph, 65) in TipsFor(seo, checks) <==> StatusOf(Lookup(checks, Og)) != Some(Ok)
    ensures Tip(High, FixAltTexts(seo.images.withoutAlt), 65) in TipsFor(seo, checks) <==> StatusOf(Lookup(checks, Img)) == Some(Warn) || StatusOf(Lookup(checks, Img)) == Some(Fail)
  {
    TriggersListed(seo);
    TipIffFires(seo, checks, 4);
    TipIffFires(seo, checks, 5);
    TipIffFires(seo, checks, 6);
    TipIffFires(seo, checks, 7);
  }

  /** The medium tips: each unless its check is ok; a missing check is not ok. */
  lemma MedTipsIff(seo: S.PageSignals, checks: seq<Check>)
    ensures Tip(Med, AddStructuredData, 60) in TipsFor(seo, checks) <==> StatusOf(Lookup(checks, Schema)) != Some(Ok)
    ensures Tip(Med, AddTwitterCard, 35) in TipsFor(seo, checks) <==> StatusOf(Lookup(checks, Twitter)) != Some(Ok)
    ensures Tip(Med, ExpandContent(seo.content.wordCount), 55) in TipsFor(seo, checks) <==> StatusOf(Lookup(checks, Content)) != Some(Ok)
  {
    TriggersListed(seo);
    TipIffFires(seo, checks, 8);
    TipIffFires(seo, checks, 9);
    TipIffFires(seo, checks, 10);
  }

  /** The low tips: headings and language unless ok, lazy loading only on a warning. */
  lemma LowTipsIff(seo: S.PageSignals, checks: seq<Check>)
    ensures Tip(Low, ImproveHeadings, 40) in TipsFor(seo, checks) <==> StatusOf(Lookup(checks, H2)) != Some(Ok)
    ensures Tip(Low, DeclareLanguage, 45) in TipsFor(seo, checks) <==> StatusOf(Lookup(checks, Lang)) != Some(Ok)
    ensures Tip(Low, AddLazyLoading, 40) in TipsFor(seo, checks) <==> StatusOf(Lookup(checks, Lazy)) == Some(Warn)
  {
    TriggersListed(seo);
    TipIffFires(seo, checks, 11);
    TipIffFires(seo, checks, 12);
    TipIffFires(seo, checks, 13);
  }

  /** Every tip a group of one priority emits has that priority. */
  lemma FiredAllPriority(ts: seq<Trigger>, checks: seq<Check>, p: Priority)
    requires forall i :: 0 <= i < |ts| ==> ts[i].tip.priority == p
    ensures forall k :: 0 <= k < |Fired(ts, checks)| ==> Fired(ts, checks)[k].priority == p
  {
    forall k | 0 <= k < |Fired(ts, checks)|
      ensures Fired(ts, checks)[k].priority == p
    {
      FiredMember(ts, checks, Fired(ts, checks)[k]);
    }
  }

  /** No tip after the critical group is critical. */
  lemma LaterNotCrit(seo: S.PageSignals, checks: seq<Check>)
    ensures var later := Fired(HighTriggers(seo), checks) + Fired(MedTriggers(seo), checks) + Fired(LowTriggers(), checks);
      forall k :: 0 <= k < |later| ==> later[k].priority != Crit
  {
    FiredAllPriority(HighTriggers(seo), checks, High);
    FiredAllPriority(MedTriggers(seo), checks, Med);
    FiredAllPriority(LowTriggers(), checks, Low);
    NoneCrit(Fired(HighTriggers(seo), checks), Fired(MedTriggers(seo), checks), Fired(LowTriggers(), checks));
  }

  lemma NoneCrit(high: seq<Tip>, med: seq<Tip>, low: seq<Tip>)
    requires forall k :: 0 <= k < |high| ==> high[k].priority == High
    requires forall k :: 0 <= k < |med| ==> med[k].priority == Med
    requires forall k :: 0 <= k < |low| ==> low[k].priority == Low
    ensures forall k :: 0 <= k < |high + med + low| ==> (high + med + low)[k].priority != Crit
  {
    var later := high + med + low;
    forall k | 0 <= k < |later|
      ensures later[k].priority != Crit
    {
      if k < |high| {
        assert later[k] == high[k];
      } else if k < |high| + |med| {
        assert later[k] == med[k - |high|];
      } else {
        assert later[k] == low[k - |high| - |med|];
      }
    }
  }

  /** The critical tips open the list and no later tip is critical. */
  lemma CritTipsFirst(seo: S.PageSignals, checks: seq<Check>)
    ensures var tips, crit := TipsFor(seo, checks), Fired(CritTriggers(), checks);
      && |crit| <= |tips| && tips[..|crit|] == crit
      && forall i :: 0 <= i < |tips| ==> (tips[i].priority == Crit <==> i < |crit|)
  {
    FiredAllPriority(CritTriggers(), checks, Crit);
    LaterNotCrit(seo, checks);
    TipsForGroups(seo, checks);
    CritPrefix(TipsFor(seo, checks), Fired(CritTriggers(), checks),
               Fired(HighTriggers(seo), checks), Fired(MedTriggers(seo), checks), Fired(LowTriggers(), checks));
  }

  lemma CritPrefix(tips: seq<Tip>, crit: seq<Tip>, high: seq<Tip>, med: seq<Tip>, low: seq<Tip>)
    requires tips == if |crit + high + med + low| == 0 then [Congratulations] else crit + high + med + low
    requires forall k :: 0 <= k < |crit| ==> crit[k].priority == Crit
    requires forall k :: 0 <= k < |high + med + low| ==> (high + med + low)[k].priority != Crit
    ensures |crit| <= |tips| && tips[..|crit|] == crit
    ensures forall i :: 0 <= i < |tips| ==> (tips[i].priority == Crit <==> i < |crit|)
  {
    var later := high + med + low;
    assert crit + high + med + low == crit + later;
    forall i | |crit| <= i < |crit + later|
      ensures (crit + later)[i].priority != Crit
    {
      assert (crit + later)[i] == later[i - |crit|];
    }
  }

  /** With no checks at all, every trigger asking for an ok check fires, and only those. */
  lemma TipsForNoChecks(seo: S.PageSignals)
    ensures TipsFor(seo, []) ==
      [Tip(High, CanonicalUrls, 70), Tip(High, CompleteOpenGraph, 65),
       Tip(Med, AddStructuredData, 60), Tip(Med, AddTwitterCard, 35),
       Tip(Med, ExpandContent(seo.content.wordCount), 55),
       Tip(Low, ImproveHeadings, 40), Tip(Low, DeclareLanguage, 45)]
  {
    NoChecksGroups(seo);
    TipsForGroups(seo, []);
  }

  lemma NoChecksGroups(seo: S.PageSignals)
    ensures Fired(CritTriggers(), []) == []
    ensures Fired(HighTriggers(seo), []) == [Tip(High, CanonicalUrls, 70), Tip(High, CompleteOpenGraph, 65)]
    ensures Fired(MedTriggers(seo), []) ==
      [Tip(Med, AddStructuredData, 60), Tip(Med, AddTwitterCard, 35), Tip(Med, ExpandContent(seo.content.wordCount), 55)]
    ensures Fired(LowTriggers(), []) == [Tip(Low, ImproveHeadings, 40), Tip(Low, DeclareLanguage, 45)]
  {
    FiredCrit([]);
    FiredHigh(seo, []);
    FiredMed(seo, []);
    FiredLow([]);
  }

  /** When no check asks for attention, the congratulatory tip is the only one. */
  lemma QuietChecks(seo: S.PageSignals, checks: seq<Check>)
    requires StatusOf(Lookup(checks, Https)) != Some(Fail) && StatusOf(Lookup(checks, Title)) != Some(Fail)
    requires StatusOf(Lookup(checks, Desc)) != Some(Fail) && StatusOf(Lookup(checks, H1)) != Some(Fail)
    requires StatusOf(Lookup(checks, Viewport)) != Some(Fail)
    requires StatusOf(Lookup(checks, Canonical)) == Some(Ok) && StatusOf(Lookup(checks, Og)) == Some(Ok)
    requires StatusOf(Lookup(checks, Img)) != Some(Warn) && StatusOf(Lookup(checks, Img)) != Some(Fail)
    requires StatusOf(Lookup(checks, Schema)) == Some(Ok) && StatusOf(Lookup(checks, Twitter)) == Some(Ok)
    requires StatusOf(Lookup(checks, Content)) == Some(Ok)
    requires StatusOf(Lookup(checks, H2)) == Some(Ok) && StatusOf(Lookup(checks, Lang)) == Some(Ok)
    requires StatusOf(Lookup(checks, Lazy)) != Some(Warn)
    ensures TipsFor(seo, checks) == [Congratulations]
  {
    FiredCrit(checks);
    FiredHigh(seo, checks);
    FiredMed(seo, checks);
    FiredLow(checks);
    TipsForGroups(seo, checks);
  }

  /** When the four critical checks all fail, their tips open the list, in table order. */
  lemma FailingEssentials(seo: S.PageSignals, checks: seq<Check>)
    requires StatusOf(Lookup(checks, Https)) == Some(Fail) && StatusOf(Lookup(checks, Title)) == Some(Fail)
    requires StatusOf(Lookup(checks, Desc)) == Some(Fail) && StatusOf(Lookup(checks, H1)) == Some(Fail)
    ensures var tips := TipsFor(seo, checks);
      && |tips| >= 4
      && tips[..4] == [Tip(Crit, EnableHttps, 95), Tip(Crit, AddTitle, 95),
                       Tip(Crit, WriteDescription, 85), Tip(Crit, AddH1, 80)]
      && forall i :: 4 <= i < |tips| ==> tips[i].priority != Crit
  {
    FiredCrit(checks);
    CritTipsFirst(seo, checks);
  }
}
