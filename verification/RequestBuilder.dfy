/** Accumulating update checks, pings and events per app into one protocol request. */
module RequestBuilder {
  import opened Wrappers
  import opened Protocol
  import Version

  datatype AppEntry = AppEntry(app: App, updateCheck: Option<UpdateCheck>, ping: bool, events: seq<Event>)

  function NewEntry(app: App): AppEntry {
    AppEntry(app, None, false, [])
  }

  /** One `add_*` call. */
  datatype Op =
    | AddUpdateCheck(app: App)
    | AddPing(app: App)
    | AddEvent(app: App, event: Event)

  function CheckFor(params: RequestParams): UpdateCheck {
    UpdateCheck(params.disableUpdates, params.offerUpdateIfSameVersion)
  }

  function Modify(params: RequestParams, entry: AppEntry, op: Op): AppEntry {
    match op
    case AddUpdateCheck(_) => entry.(updateCheck := Some(CheckFor(params)))
    case AddPing(_) => entry.(ping := true)
    case AddEvent(_, event) => entry.(events := entry.events + [event])
  }

  /** The position of the entry for an app id, or the length if there is none. */
  function Find(entries: seq<AppEntry>, id: string): (i: nat)
    ensures i <= |entries|
    ensures i < |entries| ==> entries[i].app.id == id
    ensures forall j :: 0 <= j < i ==> entries[j].app.id != id
  {
    if entries == [] || entries[0].app.id == id then 0 else 1 + Find(entries[1..], id)
  }

  function ApplyOp(params: RequestParams, entries: seq<AppEntry>, op: Op): seq<AppEntry> {
    var i := Find(entries, op.app.id);
    if i < |entries| then entries[i := Modify(params, entries[i], op)]
    else entries + [Modify(params, NewEntry(op.app), op)]
  }

  function ApplyOps(params: RequestParams, ops: seq<Op>): seq<AppEntry> {
    if ops == [] then [] else ApplyOp(params, ApplyOps(params, ops[..|ops| - 1]), ops[|ops| - 1])
  }

  function ToRequestApp(entry: AppEntry): RequestApp {
    var days := entry.app.userCounting.days;
    RequestApp(
      entry.app.id,
      Version.ToString(entry.app.version),
      entry.app.fingerprint,
      Some(entry.app.cohort),
      entry.updateCheck,
      entry.events,
      if entry.ping then Some(Ping(days, days)) else None,
      entry.app.extraFields)
  }

  /** An app as a request describes it, with what is asked and told about it. */
  function Describing(app: App, check: Option<UpdateCheck>, ping: Option<Ping>, events: seq<Event>): RequestApp {
    RequestApp(
      app.id, Version.Printed(app.version), app.fingerprint, Some(app.cohort), check, events, ping, app.extraFields)
  }

  /** A ping says on which day the app was last active and last counted: the same day. */
  function DaysPing(entry: AppEntry): Option<Ping> {
    if entry.ping then Some(Ping(entry.app.userCounting.days, entry.app.userCounting.days)) else None
  }

  lemma EntryDescribes(entry: AppEntry)
    ensures ToRequestApp(entry) ==
            Describing(entry.app, entry.updateCheck, DaysPing(entry), entry.events)
  {
    hide Version.Printed, Version.ToString;
    Version.PrintedIsToString(entry.app.version);
  }

  /** The contents of a builder. */
  datatype Builder = Builder(
    config: Config,
    params: RequestParams,
    entries: seq<AppEntry>,
    requestId: Option<GUID>,
    sessionId: Option<GUID>)
  {
    function Add(op: Op): Builder {
      this.(entries := ApplyOp(params, entries, op))
    }

    function Headers(): seq<(string, string)> {
      [("content-type", "application/json"),
       ("X-Goog-Update-Updater", config.updaterName),
       ("X-Goog-Update-Interactivity", if params.source.OnDemand? then "fg" else "bg")]
      + if entries == [] then [] else [("X-Goog-Update-AppId", entries[0].app.id)]
    }

    /** `build_intermediate`, before the request is decorated. */
    function Build(): Intermediate {
      Intermediate(
        config.serviceUrl,
        Headers(),
        Request("3.0", config.updaterName, Version.ToString(config.updaterVersion), params.source, true,
                requestId, sessionId, config.os,
                seq(|entries|, i requires 0 <= i < |entries| => ToRequestApp(entries[i]))))
    }
  }

  function NewBuilder(config: Config, params: RequestParams): Builder {
    Builder(config, params, [], None, None)
  }

  class RequestBuilder {
    const config: Config
    const params: RequestParams
    var appEntries: seq<AppEntry>
    var requestId: Option<GUID>
    var sessionId: Option<GUID>

    ghost function Contents(): Builder
      reads this
    {
      Builder(config, params, appEntries, requestId, sessionId)
    }

    constructor (config: Config, params: RequestParams)
      ensures Contents() == NewBuilder(config, params)
    {
      this.config := config;
      this.params := params;
      appEntries := [];
      requestId := None;
      sessionId := None;
    }

    /** `insert_and_modify_entry`, with the modification given by the operation it comes from. */
    method InsertAndModifyEntry(op: Op)
      modifies this`appEntries
      ensures Contents() == old(Contents()).Add(op)
    {
      var i := 0;
      while i < |appEntries| && appEntries[i].app.id != op.app.id
        invariant 0 <= i <= |appEntries|
        invariant Find(appEntries, op.app.id) == i + Find(appEntries[i..], op.app.id)
      {
        assert appEntries[i..][1..] == appEntries[i + 1..];
        i := i + 1;
      }
      if i < |appEntries| {
        appEntries := appEntries[i := Modify(params, appEntries[i], op)];
      } else {
        appEntries := appEntries + [Modify(params, NewEntry(op.app), op)];
      }
    }

    method SetRequestId(id: GUID)
      modifies this`requestId
      ensures Contents() == old(Contents()).(requestId := Some(id))
    {
      requestId := Some(id);
    }

    method SetSessionId(id: GUID)
      modifies this`sessionId
      ensures Contents() == old(Contents()).(sessionId := Some(id))
    {
      sessionId := Some(id);
    }

    method Build() returns (r: Intermediate)
      ensures r == Contents().Build()
      ensures |r.body.apps| == |appEntries|
      ensures forall k :: 0 <= k < |appEntries| ==>
                var entry := appEntries[k];
                r.body.apps[k] == Describing(entry.app, entry.updateCheck, DaysPing(entry), entry.events)
    {
      var headers := [
        ("content-type", "application/json"),
        ("X-Goog-Update-Updater", config.updaterName),
        ("X-Goog-Update-Interactivity", if params.source.OnDemand? then "fg" else "bg")];
      if appEntries != [] {
        headers := headers + [("X-Goog-Update-AppId", appEntries[0].app.id)];
      }
      var entries := appEntries;
      var apps := seq(|entries|, i requires 0 <= i < |entries| => ToRequestApp(entries[i]));
      r := Intermediate(
        config.serviceUrl,
        headers,
        Request("3.0", config.updaterName, Version.ToString(config.updaterVersion), params.source, true,
                requestId, sessionId, config.os, apps));
      assert r.headers == Contents().Headers();
      forall k | 0 <= k < |entries|
        ensures apps[k] == Describing(entries[k].app, entries[k].updateCheck, DaysPing(entries[k]), entries[k].events)
      {
        EntryDescribes(entries[k]);
      }
    }
  }

  // The group-by that the builder must agree with

  /** The ids mentioned, each once, in the order of their first mention. */
  function Ids(ops: seq<Op>): seq<string> {
    if ops == [] then []
    else
      var before := Ids(ops[..|ops| - 1]);
      var id := ops[|ops| - 1].app.id;
      if id in before then before else before + [id]
  }

  predicate Mentions(ops: seq<Op>, id: string) {
    exists i :: 0 <= i < |ops| && ops[i].app.id == id
  }

  predicate Checks(ops: seq<Op>, id: string) {
    exists i :: 0 <= i < |ops| && ops[i].AddUpdateCheck? && ops[i].app.id == id
  }

  predicate Pings(ops: seq<Op>, id: string) {
    exists i :: 0 <= i < |ops| && ops[i].AddPing? && ops[i].app.id == id
  }

  function FirstApp(ops: seq<Op>, id: string): (app: App)
    requires Mentions(ops, id)
    ensures app.id == id
  {
    if ops[0].app.id == id then ops[0].app else FirstApp(ops[1..], id)
  }

  function EventsOf(ops: seq<Op>, id: string): seq<Event> {
    if ops == [] then []
    else
      var last := ops[|ops| - 1];
      EventsOf(ops[..|ops| - 1], id) + if last.AddEvent? && last.app.id == id then [last.event] else []
  }

  function Group(params: RequestParams, ops: seq<Op>, id: string): AppEntry
    requires Mentions(ops, id)
  {
    AppEntry(
      FirstApp(ops, id),
      if Checks(ops, id) then Some(CheckFor(params)) else None,
      Pings(ops, id),
      EventsOf(ops, id))
  }

  lemma {:induction false} IdsAreMentioned(ops: seq<Op>)
    ensures forall id :: id in Ids(ops) <==> Mentions(ops, id)
    ensures forall i, j :: 0 <= i < j < |Ids(ops)| ==> Ids(ops)[i] != Ids(ops)[j]
  {
    if ops != [] {
      var before := ops[..|ops| - 1];
      IdsAreMentioned(before);
      forall id ensures id in Ids(ops) <==> Mentions(ops, id) {
        assert Mentions(ops, id) <==> Mentions(before, id) || ops[|ops| - 1].app.id == id by {
          assert forall i :: 0 <= i < |before| ==> ops[i] == before[i];
        }
      }
    }
  }

  lemma {:induction false} FirstAppOfPrefix(ops: seq<Op>, last: Op, id: string)
    ensures Mentions(ops, id) ==> Mentions(ops + [last], id) && FirstApp(ops + [last], id) == FirstApp(ops, id)
    ensures !Mentions(ops, id) && last.app.id == id ==>
              Mentions(ops + [last], id) && FirstApp(ops + [last], id) == last.app
  {
    if ops == [] {
      assert (ops + [last])[0] == last;
    } else {
      assert (ops + [last])[1..] == ops[1..] + [last];
      assert forall i :: 0 <= i < |ops| ==> (ops + [last])[i] == ops[i];
      assert last == (ops + [last])[|ops|];
      assert forall i :: 1 <= i < |ops| ==> ops[i] == ops[1..][i - 1];
      if ops[0].app.id != id {
        FirstAppOfPrefix(ops[1..], last, id);
        if Mentions(ops, id) {
          assert Mentions(ops[1..], id) by {
            var i :| 0 <= i < |ops| && ops[i].app.id == id;
            assert ops[1..][i - 1].app.id == id;
          }
        }
      }
    }
  }

  lemma GroupStep(params: RequestParams, ops: seq<Op>, last: Op, id: string)
    requires Mentions(ops + [last], id)
    ensures Group(params, ops + [last], id) ==
            if last.app.id != id then (assert Mentions(ops, id); Group(params, ops, id))
            else if Mentions(ops, id) then Modify(params, Group(params, ops, id), last)
            else Modify(params, NewEntry(last.app), last)
  {
    var all := ops + [last];
    assert forall i :: 0 <= i < |ops| ==> all[i] == ops[i];
    assert all[|ops|] == last;
    assert all[..|all| - 1] == ops;
    FirstAppOfPrefix(ops, last, id);
    assert Checks(all, id) <==> Checks(ops, id) || (last.AddUpdateCheck? && last.app.id == id);
    assert Pings(all, id) <==> Pings(ops, id) || (last.AddPing? && last.app.id == id);
    if !Mentions(ops, id) {
      NoEventsUnlessMentioned(ops, id);
    }
  }

  lemma {:induction false} NoEventsUnlessMentioned(ops: seq<Op>, id: string)
    requires !Mentions(ops, id)
    ensures EventsOf(ops, id) == []
  {
    if ops != [] {
      assert ops[|ops| - 1].app.id != id;
      assert forall i :: 0 <= i < |ops| - 1 ==> ops[..|ops| - 1][i] == ops[i];
      NoEventsUnlessMentioned(ops[..|ops| - 1], id);
    }
  }

  /** For any sequence of operations the builder holds one entry per id, in first-seen order,
      and each entry is the group of that id's operations. */
  lemma {:induction false} BuilderGroups(params: RequestParams, ops: seq<Op>)
    ensures var entries := ApplyOps(params, ops);
            && |entries| == |Ids(ops)|
            && forall i :: 0 <= i < |entries| ==>
                 Mentions(ops, Ids(ops)[i]) && entries[i] == Group(params, ops, Ids(ops)[i])
  {
    IdsAreMentioned(ops);
    if ops != [] {
      var before, last := ops[..|ops| - 1], ops[|ops| - 1];
      assert ops == before + [last];
      BuilderGroups(params, before);
      IdsAreMentioned(before);
      var entries, ids := ApplyOps(params, before), Ids(before);
      assert forall i :: 0 <= i < |entries| ==> entries[i].app.id == ids[i];
      forall i | 0 <= i < |Ids(ops)|
        ensures Mentions(ops, Ids(ops)[i]) && ApplyOps(params, ops)[i] == Group(params, ops, Ids(ops)[i])
      {
        GroupStep(params, before, last, Ids(ops)[i]);
      }
    }
  }

  lemma ApplyOpsSnoc(params: RequestParams, ops: seq<Op>, op: Op)
    ensures ApplyOps(params, ops + [op]) == ApplyOp(params, ApplyOps(params, ops), op)
  {
    assert (ops + [op])[..|ops|] == ops;
  }

  predicate SameKind(a: Op, b: Op) {
    (a.AddUpdateCheck? && b.AddUpdateCheck?) || (a.AddPing? && b.AddPing?) || (a.AddEvent? && b.AddEvent?)
  }

  // When adjacent operations commute

  lemma ModificationsCommute(params: RequestParams, entry: AppEntry, a: Op, b: Op)
    requires !SameKind(a, b)
    ensures Modify(params, Modify(params, entry, a), b) == Modify(params, Modify(params, entry, b), a)
  {
  }

  lemma ModifyKeepsApp(params: RequestParams, entry: AppEntry, op: Op)
    ensures Modify(params, entry, op).app == entry.app
  {
  }

  lemma {:induction false} FindInAppended(entries: seq<AppEntry>, e: AppEntry, id: string)
    ensures Find(entries + [e], id) ==
            if Find(entries, id) < |entries| then Find(entries, id)
            else if e.app.id == id then |entries| else |entries| + 1
  {
    if entries != [] {
      assert (entries + [e])[1..] == entries[1..] + [e];
      FindInAppended(entries[1..], e, id);
    }
  }

  lemma {:induction false} FindInUpdated(entries: seq<AppEntry>, i: nat, e: AppEntry, id: string)
    requires i < |entries| && e.app.id == entries[i].app.id
    ensures Find(entries[i := e], id) == Find(entries, id)
  {
    if i > 0 {
      assert entries[i := e][1..] == entries[1..][i - 1 := e];
      FindInUpdated(entries[1..], i - 1, e, id);
    }
  }

  /** An operation whose id has an entry changes that entry only. */
  lemma ApplyToKnown(params: RequestParams, entries: seq<AppEntry>, op: Op)
    requires Find(entries, op.app.id) < |entries|
    ensures var i := Find(entries, op.app.id);
            var e := Modify(params, entries[i], op);
            && ApplyOp(params, entries, op) == entries[i := e]
            && e.app == entries[i].app
            && forall id :: Find(entries[i := e], id) == Find(entries, id)
  {
    hide Modify, Find;
    var i := Find(entries, op.app.id);
    ModifyKeepsApp(params, entries[i], op);
    forall id
      ensures Find(entries[i := Modify(params, entries[i], op)], id) == Find(entries, id)
    {
      FindInUpdated(entries, i, Modify(params, entries[i], op), id);
    }
  }

  lemma BothKnownCommute(params: RequestParams, entries: seq<AppEntry>, a: Op, b: Op)
    requires !SameKind(a, b)
    requires Find(entries, a.app.id) < |entries| && Find(entries, b.app.id) < |entries|
    ensures ApplyOp(params, ApplyOp(params, entries, a), b) == ApplyOp(params, ApplyOp(params, entries, b), a)
  {
    hide Modify, Find, ApplyOp;
    var i, j := Find(entries, a.app.id), Find(entries, b.app.id);
    var ab, ba := ApplyOp(params, entries, a), ApplyOp(params, entries, b);
    ApplyToKnown(params, entries, a);
    ApplyToKnown(params, entries, b);
    ApplyToKnown(params, ab, b);
    ApplyToKnown(params, ba, a);
    if i == j {
      ModificationsCommute(params, entries[i], a, b);
      assert ApplyOp(params, ab, b) == entries[i := Modify(params, Modify(params, entries[i], a), b)];
      assert ApplyOp(params, ba, a) == entries[i := Modify(params, Modify(params, entries[i], b), a)];
    }
  }

  lemma OneKnownCommutes(params: RequestParams, entries: seq<AppEntry>, a: Op, b: Op)
    requires Find(entries, a.app.id) < |entries| && Find(entries, b.app.id) == |entries|
    ensures ApplyOp(params, ApplyOp(params, entries, a), b) == ApplyOp(params, ApplyOp(params, entries, b), a)
  {
    hide Modify, Find;
    var i := Find(entries, a.app.id);
    var ea, eb := Modify(params, entries[i], a), Modify(params, NewEntry(b.app), b);
    ApplyToKnown(params, entries, a);
    FindInAppended(entries, eb, a.app.id);
    assert entries[i := ea] + [eb] == (entries + [eb])[i := ea];
  }

  /** The id of at least one of two operations has an entry: whichever comes first, the other finds what
      it would have found. */
  lemma KnownIdsCommute(params: RequestParams, entries: seq<AppEntry>, a: Op, b: Op)
    requires !SameKind(a, b) && Find(entries, a.app.id) < |entries|
    ensures ApplyOp(params, ApplyOp(params, entries, a), b) == ApplyOp(params, ApplyOp(params, entries, b), a)
  {
    hide ApplyOp, Find;
    if Find(entries, b.app.id) < |entries| {
      BothKnownCommute(params, entries, a, b);
    } else {
      OneKnownCommutes(params, entries, a, b);
    }
  }

  lemma NewIdsCommute(params: RequestParams, entries: seq<AppEntry>, a: Op, b: Op)
    requires !SameKind(a, b)
    requires Find(entries, a.app.id) == |entries| && Find(entries, b.app.id) == |entries|
    ensures var ab := ApplyOp(params, ApplyOp(params, entries, a), b);
            var ba := ApplyOp(params, ApplyOp(params, entries, b), a);
            if a.app == b.app then ab == ba
            else |entries| < |ab| && |entries| < |ba| && ab[|entries|].app != ba[|entries|].app
  {
    hide Modify, Find;
    var ea, eb := Modify(params, NewEntry(a.app), a), Modify(params, NewEntry(b.app), b);
    ModifyKeepsApp(params, NewEntry(a.app), a);
    ModifyKeepsApp(params, NewEntry(b.app), b);
    FindInAppended(entries, ea, b.app.id);
    FindInAppended(entries, eb, a.app.id);
    ModifyKeepsApp(params, ea, b);
    ModifyKeepsApp(params, eb, a);
    if a.app == b.app {
      ModificationsCommute(params, NewEntry(a.app), a, b);
      assert ApplyOp(params, entries + [ea], b) == entries + [Modify(params, ea, b)];
      assert ApplyOp(params, entries + [eb], a) == entries + [Modify(params, eb, a)];
    }
  }

  /** Later operations replace no app and lose no entry. */
  lemma {:induction false} AppsStay(params: RequestParams, ops: seq<Op>, post: seq<Op>, k: nat)
    requires k < |ApplyOps(params, ops)|
    ensures k < |ApplyOps(params, ops + post)|
    ensures ApplyOps(params, ops + post)[k].app == ApplyOps(params, ops)[k].app
  {
    hide Find, Modify;
    if post == [] {
      assert ops + post == ops;
    } else {
      var rest, last := post[..|post| - 1], post[|post| - 1];
      AppsStay(params, ops, rest, k);
      var entries := ApplyOps(params, ops + rest);
      ApplyOpsSnoc(params, ops + rest, last);
      assert ops + post == ops + rest + [last];
      if Find(entries, last.app.id) < |entries| {
        ModifyKeepsApp(params, entries[Find(entries, last.app.id)], last);
      }
    }
  }

  lemma {:induction false} SameThereafter(params: RequestParams, ops: seq<Op>, others: seq<Op>, post: seq<Op>)
    requires ApplyOps(params, ops) == ApplyOps(params, others)
    ensures ApplyOps(params, ops + post) == ApplyOps(params, others + post)
  {
    hide ApplyOp;
    if post == [] {
      assert ops + post == ops && others + post == others;
    } else {
      var rest, last := post[..|post| - 1], post[|post| - 1];
      SameThereafter(params, ops, others, rest);
      ApplyOpsSnoc(params, ops + rest, last);
      ApplyOpsSnoc(params, others + rest, last);
      assert ops + post == ops + rest + [last] && others + post == others + rest + [last];
    }
  }

  /** There is an entry for an id exactly when an operation mentioned it. */
  lemma FoundIffMentioned(params: RequestParams, ops: seq<Op>, id: string)
    ensures Find(ApplyOps(params, ops), id) < |ApplyOps(params, ops)| <==> Mentions(ops, id)
  {
    hide Mentions, FirstApp, Checks, Pings, EventsOf;
    BuilderGroups(params, ops);
    IdsAreMentioned(ops);
    var entries := ApplyOps(params, ops);
    assert forall i :: 0 <= i < |entries| ==> entries[i].app.id == Ids(ops)[i];
    if Mentions(ops, id) {
      var i :| 0 <= i < |Ids(ops)| && Ids(ops)[i] == id;
      assert entries[i].app.id == id;
    }
  }

  lemma AfterTwo(params: RequestParams, pre: seq<Op>, a: Op, b: Op)
    ensures ApplyOps(params, pre + [a, b]) == ApplyOp(params, ApplyOp(params, ApplyOps(params, pre), a), b)
  {
    hide ApplyOps, ApplyOp;
    ApplyOpsSnoc(params, pre, a);
    ApplyOpsSnoc(params, pre + [a], b);
    assert pre + [a, b] == pre + [a] + [b];
  }

  /** Whatever comes before and after them, two adjacent operations of different kinds may be swapped
      exactly when they carry the same app or an earlier operation mentioned the id of one of them: it is
      the first mention of an id that decides which app is kept, and in which place. */
  lemma FirstMentionDecides(params: RequestParams, pre: seq<Op>, a: Op, b: Op, post: seq<Op>)
    requires !SameKind(a, b)
    ensures ApplyOps(params, pre + [a, b] + post) == ApplyOps(params, pre + [b, a] + post)
            <==> a.app == b.app || Mentions(pre, a.app.id) || Mentions(pre, b.app.id)
  {
    hide ApplyOps, ApplyOp, Find, Mentions;
    var entries := ApplyOps(params, pre);
    AfterTwo(params, pre, a, b);
    AfterTwo(params, pre, b, a);
    FoundIffMentioned(params, pre, a.app.id);
    FoundIffMentioned(params, pre, b.app.id);
    if Mentions(pre, a.app.id) {
      KnownIdsCommute(params, entries, a, b);
    } else if Mentions(pre, b.app.id) {
      KnownIdsCommute(params, entries, b, a);
    } else {
      NewIdsCommute(params, entries, a, b);
    }
    if a.app == b.app || Mentions(pre, a.app.id) || Mentions(pre, b.app.id) {
      SameThereafter(params, pre + [a, b], pre + [b, a], post);
    } else {
      AppsStay(params, pre + [a, b], post, |entries|);
      AppsStay(params, pre + [b, a], post, |entries|);
    }
  }

  /** In particular they may always be swapped when they are about the same app. */
  lemma AdjacentKindsCommute(params: RequestParams, pre: seq<Op>, a: Op, b: Op, post: seq<Op>)
    requires a.app == b.app && !SameKind(a, b)
    ensures ApplyOps(params, pre + [a, b] + post) == ApplyOps(params, pre + [b, a] + post)
  {
    FirstMentionDecides(params, pre, a, b, post);
  }
}
