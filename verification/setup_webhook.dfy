/**
 * Webhook setup: grouping raw event identifiers (`<scope>:<category>`) into
 * categories, reducing the "send everything" / "select individual events"
 * choice to a concrete event list, pre-filling the form when an existing
 * webhook is edited, and assembling the payload on submit.
 */
module SetupWebhook {
  import opened Common

  datatype SourceType = Organization | Project
  datatype EventsMethod = SendEverything | SelectIndividual

  /**
   * `event.split(':')[1]`: the text between the first and second colon, or
   * `undefined` exactly when the event has no colon.
   */
  function Category(event: string): (r: Option<string>)
    ensures r.None? <==> ':' !in event
    ensures r.Some? ==> ':' !in r.value
  {
    Segment(event, ':', 1)
  }

  // ---------------------------------------------------------------------------
  // groupEvents

  predicate NoDuplicates<T(==)>(s: seq<T>)
  {
    forall i, j :: 0 <= i < j < |s| ==> s[i] != s[j]
  }

  /** `Array.from(new Set(xs))`: each distinct element once, in first-seen order. */
  function Dedup<T(==,!new)>(xs: seq<T>): (r: seq<T>)
    ensures forall x :: x in r <==> x in xs
    ensures NoDuplicates(r)
    ensures |r| <= |xs|
  {
    if |xs| == 0 then []
    else
      var d := Dedup(xs[..|xs| - 1]);
      var last := xs[|xs| - 1];
      if last in d then d else d + [last]
  }

  /** The position of the first occurrence of `x` in `xs`. */
  function FirstIndex<T(==)>(xs: seq<T>, x: T): (i: nat)
    requires x in xs
    ensures i < |xs| && xs[i] == x && x !in xs[..i]
  {
    if xs[0] == x then 0 else 1 + FirstIndex(xs[1..], x)
  }

  /** A position holding `x` with no `x` before it is the first index of `x`. */
  lemma {:induction false} FirstIndexUnique<T>(xs: seq<T>, x: T, k: nat)
    requires k < |xs| && xs[k] == x && x !in xs[..k]
    ensures FirstIndex(xs, x) == k
  {
    if k > 0 {
      assert xs[0] in xs[..k];
      assert xs[1..][..k - 1] == xs[..k][1..];
      FirstIndexUnique(xs[1..], x, k - 1);
    }
  }

  lemma FirstIndexInPrefix<T>(xs: seq<T>, n: nat, x: T)
    requires n <= |xs| && x in xs[..n]
    ensures FirstIndex(xs, x) == FirstIndex(xs[..n], x)
  {
    var i := FirstIndex(xs[..n], x);
    assert xs[..n][..i] == xs[..i];
    FirstIndexUnique(xs, x, i);
  }

  /** The de-duplicated list lists elements in the order of their first occurrence. */
  lemma {:induction false} DedupFirstSeenOrder<T(!new)>(xs: seq<T>)
    ensures forall i, j :: 0 <= i < j < |Dedup(xs)| ==>
      FirstIndex(xs, Dedup(xs)[i]) < FirstIndex(xs, Dedup(xs)[j])
  {
    if |xs| > 0 {
      var init := xs[..|xs| - 1];
      var last := xs[|xs| - 1];
      var d := Dedup(init);
      DedupFirstSeenOrder(init);
      forall k | 0 <= k < |d| ensures d[k] in xs && FirstIndex(xs, d[k]) == FirstIndex(init, d[k]) {
        assert d[k] in d;
        assert xs[..|xs| - 1] == init;
        FirstIndexInPrefix(xs, |xs| - 1, d[k]);
      }
      if last !in d {
        assert last !in init;
        assert xs[..|xs| - 1] == init;
        FirstIndexUnique(xs, last, |xs| - 1);
      }
    }
  }

  lemma {:induction false} DistinctCount<T(!new)>(s: seq<T>)
    requires NoDuplicates(s)
    ensures |set x | x in s| == |s|
  {
    if |s| > 0 {
      var init := s[..|s| - 1];
      DistinctCount(init);
      assert (set x | x in s) == (set x | x in init) + {s[|s| - 1]};
      assert s[|s| - 1] !in init;
    }
  }

  /** `events.map((event) => event.split(':')[1])`. */
  function EventCategories(events: seq<string>): (cats: seq<Option<string>>)
    ensures |cats| == |events|
    ensures forall i :: 0 <= i < |events| ==> cats[i] == Category(events[i])
  {
    seq(|events|, i requires 0 <= i < |events| => Category(events[i]))
  }

  /**
   * `groupEvents(events)`: the categories of the events, each once, in the
   * order in which their first event appears.
   */
  function GroupEvents(events: seq<string>): (r: seq<Option<string>>)
    ensures forall c :: c in r <==> exists e :: e in events && Category(e) == c
    ensures forall c :: c in r <==> c in EventCategories(events)
    ensures NoDuplicates(r)
    ensures |r| <= |events|
    ensures forall i, j :: 0 <= i < j < |r| ==>
      FirstIndex(EventCategories(events), r[i]) < FirstIndex(EventCategories(events), r[j])
  {
    var cats := EventCategories(events);
    assert forall c :: c in cats <==> exists e :: e in events && Category(e) == c by {
      forall c ensures c in cats <==> exists e :: e in events && Category(e) == c {
        if exists e :: e in events && Category(e) == c {
          var e :| e in events && Category(e) == c;
          var i :| 0 <= i < |events| && events[i] == e;
          assert cats[i] == c;
        }
      }
    }
    DedupFirstSeenOrder(cats);
    Dedup(cats)
  }

  /** The set of categories of a list of events. */
  function Categories(events: seq<string>): set<Option<string>>
  {
    set e | e in events :: Category(e)
  }

  /** `groupEvents` yields one entry per distinct category. */
  lemma GroupEventsCountsCategories(events: seq<string>)
    ensures |GroupEvents(events)| == |Categories(events)|
  {
    var r := GroupEvents(events);
    DistinctCount(r);
    assert (set x | x in r) == Categories(events);
  }

  // ---------------------------------------------------------------------------
  // collectEvents

  /** The values the form store holds: text, check-box flags, the method radio, the raw event list. */
  datatype FormValue = Text(s: string) | Flag(b: bool) | Method(m: EventsMethod) | EventList(events: seq<string>) | Missing

  predicate Truthy(v: FormValue)
  {
    match v
    case Text(s) => s != ""
    case Flag(b) => b
    case Method(_) => true
    case EventList(_) => true
    case Missing => false
  }

  /** The categories of the truthy `event:<category>` entries of the submitted values. */
  function SelectedCategories(submitted: map<string, FormValue>): (r: set<Option<string>>)
    ensures forall c :: c in r ==> c.Some?
  {
    assert forall k: string :: "event:" <= k ==> Category(k).Some? by {
      forall k: string | "event:" <= k ensures Category(k).Some? {
        assert k[5] == ':';
      }
    }
    set k | k in submitted && "event:" <= k && Truthy(submitted[k]) :: Category(k)
  }

  /** The events of `all` whose category is among `selected`, in order, duplicates kept. */
  function FilterByCategory(all: seq<string>, selected: set<Option<string>>): (r: seq<string>)
    ensures |r| <= |all|
    ensures forall e :: e in r <==> e in all && Category(e) in selected
    ensures forall e :: multiset(r)[e] == if Category(e) in selected then multiset(all)[e] else 0
  {
    if |all| == 0 then []
    else
      var init := FilterByCategory(all[..|all| - 1], selected);
      var last := all[|all| - 1];
      assert all == all[..|all| - 1] + [last];
      if Category(last) in selected then init + [last] else init
  }

  /** Filtering a concatenation filters each part: the order of `all` is kept. */
  lemma {:induction false} FilterByCategoryAppend(a: seq<string>, b: seq<string>, selected: set<Option<string>>)
    ensures FilterByCategory(a + b, selected) == FilterByCategory(a, selected) + FilterByCategory(b, selected)
    decreases |b|
  {
    if |b| > 0 {
      var b' := b[..|b| - 1];
      assert (a + b)[..|a + b| - 1] == a + b';
      FilterByCategoryAppend(a, b', selected);
    } else {
      assert a + b == a;
    }
  }

  /** `collectEvents(method, submittedGroups, allEvents)`. */
  function CollectEvents(m: EventsMethod, submitted: map<string, FormValue>, all: seq<string>): (r: seq<string>)
    ensures m == SendEverything ==> r == all
    ensures m == SelectIndividual ==>
      forall e :: e in r <==> e in all && Category(e) in SelectedCategories(submitted)
  {
    if m == SendEverything then all else FilterByCategory(all, SelectedCategories(submitted))
  }

  /** A key of the form `event:<c>` names the category `c`. */
  lemma EventKeyCategory(c: string)
    requires ':' !in c
    ensures Category("event:" + c) == Some(c)
  {
    assert "event:" + c == "event" + [':'] + c;
    SegmentAfterPrefix("event", ':', c);
  }

  /** Keys that do not start with `event:` never change the collected events. */
  lemma CollectIgnoresOtherKeys(m: EventsMethod, submitted: map<string, FormValue>, all: seq<string>,
                                k: string, v: FormValue)
    requires !("event:" <= k)
    ensures CollectEvents(m, submitted[k := v], all) == CollectEvents(m, submitted, all)
  {
    assert SelectedCategories(submitted[k := v]) == SelectedCategories(submitted);
  }

  /** With no truthy category flag, selecting individual events gives nothing. */
  lemma CollectNothingSelected(submitted: map<string, FormValue>, all: seq<string>)
    requires forall k :: k in submitted && "event:" <= k ==> !Truthy(submitted[k])
    ensures CollectEvents(SelectIndividual, submitted, all) == []
  {
    var r := CollectEvents(SelectIndividual, submitted, all);
    assert SelectedCategories(submitted) == {};
  }

  // ---------------------------------------------------------------------------
  // Editing an existing webhook

  /** `${category}` in a template literal: `undefined` prints as "undefined". */
  function CategoryText(event: string): (t: string)
    ensures ':' !in t
    ensures Category(event).Some? ==> Category(event) == Some(t)
    ensures Category(event).None? ==> t == "undefined"
  {
    var c := Category(event);
    if c.Some? then c.value else "undefined"
  }

  /** The method the edit effect infers: everything iff the category counts agree. */
  function InferEventsMethod(catalogue: seq<string>, webhookEvents: seq<string>): (m: EventsMethod)
    ensures m == SendEverything <==> |Categories(catalogue)| == |Categories(webhookEvents)|
  {
    GroupEventsCountsCategories(catalogue);
    GroupEventsCountsCategories(webhookEvents);
    if |GroupEvents(catalogue)| == |GroupEvents(webhookEvents)| then SendEverything else SelectIndividual
  }

  /** The webhook being edited, whose fields `handleSubmit` assigns in place. */
  class Webhook {
    var description: FormValue
    var targetURL: FormValue
    var contentType: FormValue
    var secret: FormValue
    var enableSSL: FormValue
    var isActive: FormValue
    var events: seq<string>
    const sourceType: SourceType

    constructor (sourceType: SourceType, events: seq<string>)
      ensures this.sourceType == sourceType && this.events == events
    {
      this.sourceType := sourceType;
      this.events := events;
      description, targetURL, contentType, secret := Missing, Missing, Missing, Missing;
      enableSSL, isActive := Missing, Missing;
    }
  }

  /** The keys the edit effect writes besides the category flags. */
  const BaseKeys: set<string> :=
    {"description", "targetURL", "contentType", "secret", "enableSSL", "isActive", "events", "eventsMethod"}

  lemma BaseKeysAreNotEventKeys()
    ensures forall k :: k in BaseKeys ==> !("event:" <= k)
  {
    forall k | k in BaseKeys ensures !("event:" <= k) {
      assert |k| < 6 || k[5] != ':' || k[0] != 'e';
    }
  }

  /** The `event:<category>` keys the pre-fill sets for a list of events. */
  function EventKeys(events: seq<string>): set<string>
  {
    set e | e in events :: "event:" + CategoryText(e)
  }

  /** Every `event:<category>` key of the events, set to `true`. */
  function EventFlags(events: seq<string>): (flags: map<string, FormValue>)
    ensures flags.Keys == EventKeys(events)
    ensures forall k :: k in flags ==> flags[k] == Flag(true)
  {
    map k | k in EventKeys(events) :: Flag(true)
  }

  /** The webhook's own fields under their form keys. */
  function BaseData(description: FormValue, targetURL: FormValue, contentType: FormValue, secret: FormValue,
                    enableSSL: FormValue, isActive: FormValue, events: seq<string>, m: EventsMethod)
    : (base: map<string, FormValue>)
    ensures base.Keys == BaseKeys
    ensures base["eventsMethod"] == Method(m) && base["events"] == EventList(events)
    ensures base["description"] == description && base["targetURL"] == targetURL
  {
    map["description" := description, "targetURL" := targetURL,
        "contentType" := contentType, "secret" := secret,
        "enableSSL" := enableSSL, "isActive" := isActive,
        "events" := EventList(events), "eventsMethod" := Method(m)]
  }

  /** The values the edit effect hands to `form.setFieldsValue`. */
  method PrefillData(w: Webhook, m: EventsMethod) returns (data: map<string, FormValue>)
    ensures data == BaseData(w.description, w.targetURL, w.contentType, w.secret, w.enableSSL, w.isActive,
                             w.events, m) + EventFlags(w.events)
  {
    var base := BaseData(w.description, w.targetURL, w.contentType, w.secret, w.enableSSL, w.isActive,
                         w.events, m);
    var events := w.events;
    data := base;
    var i := 0;
    assert EventFlags(events[..0]) == map[];
    while i < |events|
      invariant 0 <= i <= |events|
      invariant data == base + EventFlags(events[..i])
    {
      var key := "event:" + CategoryText(events[i]);
      MergeUpdate(base, EventFlags(events[..i]), key, Flag(true));
      data := data[key := Flag(true)];
      EventFlagsStep(events, i);
      i := i + 1;
    }
    assert events[..i] == events;
  }

  lemma MergeUpdate<K, V>(a: map<K, V>, b: map<K, V>, k: K, v: V)
    ensures (a + b)[k := v] == a + b[k := v]
  {
  }

  lemma EventFlagsStep(events: seq<string>, i: nat)
    requires i < |events|
    ensures EventFlags(events[..i + 1]) == EventFlags(events[..i])["event:" + CategoryText(events[i]) := Flag(true)]
  {
    assert events[..i + 1] == events[..i] + [events[i]];
    assert EventKeys(events[..i + 1]) == EventKeys(events[..i]) + {"event:" + CategoryText(events[i])};
  }

  lemma BaseAndFlagsDisjoint(events: seq<string>)
    ensures BaseKeys !! EventKeys(events)
  {
    BaseKeysAreNotEventKeys();
    forall k | k in EventKeys(events) ensures "event:" <= k {
      var e :| e in events && k == "event:" + CategoryText(e);
    }
  }

  /** The pre-fill keeps the webhook's fields and sets one flag per category, none overlapping. */
  lemma PrefillDataFacts(base: map<string, FormValue>, events: seq<string>, m: EventsMethod)
    requires base.Keys == BaseKeys
    requires base["eventsMethod"] == Method(m)
    ensures (base + EventFlags(events)).Keys == BaseKeys + EventKeys(events)
    ensures forall k :: k in EventKeys(events) ==> (base + EventFlags(events))[k] == Flag(true)
    ensures forall k :: k in BaseKeys ==> (base + EventFlags(events))[k] == base[k]
    ensures (base + EventFlags(events))["eventsMethod"] == Method(m)
  {
    BaseAndFlagsDisjoint(events);
    assert "eventsMethod" in BaseKeys;
  }

  /** Merging a pre-fill into a store adds its keys and leaves the other keys alone. */
  lemma MergePrefill(store: map<string, FormValue>, data: map<string, FormValue>, keys: set<string>)
    requires data.Keys == keys
    ensures (store + data).Keys == store.Keys + keys
    ensures forall k :: k in keys ==> (store + data)[k] == data[k]
    ensures forall k :: k in store && k !in keys ==> (store + data)[k] == store[k]
  {
  }

  /** The categories a pre-fill selects are the rendered categories of the webhook's events. */
  lemma PrefillSelects(events: seq<string>, data: map<string, FormValue>)
    requires data.Keys == BaseKeys + EventKeys(events)
    requires forall k :: k in EventKeys(events) ==> data[k] == Flag(true)
    ensures SelectedCategories(data) == set e | e in events :: Some(CategoryText(e))
  {
    BaseKeysAreNotEventKeys();
    var target := set e | e in events :: Some(CategoryText(e));
    forall c | c in SelectedCategories(data) ensures c in target {
      var k :| k in data && "event:" <= k && Truthy(data[k]) && Category(k) == c;
      assert k in EventKeys(events);
      var e :| e in events && k == "event:" + CategoryText(e);
      EventKeyCategory(CategoryText(e));
    }
    forall c | c in target ensures c in SelectedCategories(data) {
      var e :| e in events && c == Some(CategoryText(e));
      var k := "event:" + CategoryText(e);
      assert k in EventKeys(events);
      EventKeyCategory(CategoryText(e));
      assert "event:" <= k;
    }
  }

  /**
   * Collecting individually over the pre-filled form gives back exactly the
   * catalogue events whose category the webhook already subscribed to
   * (for webhook events that carry a category).
   */
  lemma PrefillRoundTrip(catalogue: seq<string>, events: seq<string>, data: map<string, FormValue>)
    requires data.Keys == BaseKeys + EventKeys(events)
    requires forall k :: k in EventKeys(events) ==> data[k] == Flag(true)
    requires forall e :: e in events ==> Category(e).Some?
    ensures forall e :: e in CollectEvents(SelectIndividual, data, catalogue) <==>
      e in catalogue && Category(e) in Categories(events)
  {
    PrefillSelects(events, data);
    assert (set e | e in events :: Some(CategoryText(e))) == Categories(events);
  }

  // ---------------------------------------------------------------------------
  // Submit

  /** The event catalogue is requested for the edited webhook's type, else by the chosen project. */
  function CatalogueType(editing: Option<SourceType>, projectId: Option<int>): (t: SourceType)
    ensures editing.Some? ==> t == editing.value
    ensures editing.None? ==> (t == Project <==> TruthyNumber(projectId))
  {
    if editing.Some? then editing.value
    else if TruthyNumber(projectId) then Project else Organization
  }

  /** The `required` rule: fails on `undefined`, the empty string and the empty list. */
  predicate Filled(v: FormValue)
  {
    match v
    case Text(s) => s != ""
    case EventList(events) => events != []
    case Flag(_) => true
    case Method(_) => true
    case Missing => false
  }

  function Get(values: map<string, FormValue>, k: string): FormValue
  {
    if k in values then values[k] else Missing
  }

  /** `form.validateFields()`: the target URL, the content type and the events method are required. */
  predicate RequiredPresent(values: map<string, FormValue>)
  {
    Filled(Get(values, "targetURL")) && Filled(Get(values, "contentType")) && Filled(Get(values, "eventsMethod"))
  }

  /** The method as `collectEvents` reads it: anything but SEND_EVERYTHING selects individually. */
  function MethodOf(values: map<string, FormValue>): EventsMethod
  {
    if Get(values, "eventsMethod") == Method(SendEverything) then SendEverything else SelectIndividual
  }

  datatype RawWebhookData = RawWebhookData(
    description: FormValue,
    targetUrl: FormValue,
    contentType: FormValue,
    secret: FormValue,
    enableSsl: FormValue,
    isActive: FormValue,
    events: seq<string>,
    organizationId: Option<int>,
    projectId: Option<int>,
    sourceType: SourceType)

  /**
   * The payload `handleSubmit` sends for a new webhook: nothing when
   * validation fails, or when there is neither a project nor a current
   * organization to read the id of (the `organization.id` access throws and
   * the error is swallowed).
   */
  function NewWebhookData(values: map<string, FormValue>, catalogue: seq<string>,
                          projectId: Option<int>, organizationId: Option<int>): (r: Option<RawWebhookData>)
    ensures r.Some? <==> RequiredPresent(values) && (TruthyNumber(projectId) || organizationId.Some?)
    ensures r.Some? && TruthyNumber(projectId) ==>
      r.value.sourceType == Project && r.value.organizationId.None? && r.value.projectId == projectId
    ensures r.Some? && !TruthyNumber(projectId) ==>
      r.value.sourceType == Organization && r.value.organizationId == organizationId
        && r.value.projectId == projectId
    ensures r.Some? ==> r.value.events == CollectEvents(MethodOf(values), values, catalogue)
    ensures r.Some? ==> r.value.targetUrl == values["targetURL"] && r.value.contentType == values["contentType"]
  {
    if !RequiredPresent(values) then None
    else if !TruthyNumber(projectId) && organizationId.None? then None
    else Some(RawWebhookData(
      Get(values, "description"), Get(values, "targetURL"), Get(values, "contentType"),
      Get(values, "secret"), Get(values, "enableSSL"), Get(values, "isActive"),
      CollectEvents(MethodOf(values), values, catalogue),
      if TruthyNumber(projectId) then None else organizationId,
      projectId,
      if TruthyNumber(projectId) then Project else Organization))
  }

  // ---------------------------------------------------------------------------
  // The component state

  const InitialStore: map<string, FormValue> :=
    map["contentType" := Text("application/json"), "eventsMethod" := Method(SendEverything),
        "enableSSL" := Flag(true), "isActive" := Flag(true)]

  /** The component: the form store, the selected project, the fetched catalogue and whether the category boxes show. */
  class SetupWebhookContent {
    var store: map<string, FormValue>
    var projectId: Option<int>
    var webhookEvents: seq<string>
    var showDetailedEvents: bool

    constructor (defaultProjectId: Option<int>)
      ensures store == InitialStore && projectId == defaultProjectId
      ensures webhookEvents == [] && !showDetailedEvents
    {
      store := InitialStore;
      projectId := defaultProjectId;
      webhookEvents := [];
      showDetailedEvents := false;
    }

    /** The first effect's callback: the fetched catalogue replaces the previous one. */
    method OnCatalogueLoaded(events: seq<string>)
      modifies this
      ensures webhookEvents == events
      ensures store == old(store) && projectId == old(projectId) && showDetailedEvents == old(showDetailedEvents)
    {
      webhookEvents := events;
    }

    /** Picking a project in the search field (new webhooks only). */
    method OnProjectSelect(id: Option<int>)
      modifies this
      ensures projectId == id
      ensures store == old(store) && webhookEvents == old(webhookEvents) && showDetailedEvents == old(showDetailedEvents)
    {
      projectId := id;
    }

    /** The edit effect: infer the method, show the category boxes for individual selection, pre-fill. */
    method EditEffect(w: Webhook)
      modifies this
      ensures webhookEvents == old(webhookEvents) && projectId == old(projectId)
      ensures showDetailedEvents <==> InferEventsMethod(webhookEvents, w.events) == SelectIndividual
      ensures store == old(store) + (BaseData(w.description, w.targetURL, w.contentType, w.secret, w.enableSSL,
                                              w.isActive, w.events, InferEventsMethod(webhookEvents, w.events))
                                     + EventFlags(w.events))
      ensures store.Keys == old(store).Keys + BaseKeys + EventKeys(w.events)
      ensures "eventsMethod" in store && store["eventsMethod"] == Method(InferEventsMethod(webhookEvents, w.events))
      ensures forall k :: k in EventKeys(w.events) ==> k in store && store[k] == Flag(true)
      ensures forall k :: k in old(store) && k !in BaseKeys + EventKeys(w.events) ==> store[k] == old(store)[k]
    {
      var m := InferEventsMethod(webhookEvents, w.events);
      showDetailedEvents := m == SelectIndividual;
      var base := BaseData(w.description, w.targetURL, w.contentType, w.secret, w.enableSSL, w.isActive,
                           w.events, m);
      var data := PrefillData(w, m);
      PrefillDataFacts(base, w.events, m);
      MergePrefill(store, base + EventFlags(w.events), BaseKeys + EventKeys(w.events));
      store := store + data;
    }

    /** Choosing a method in the radio group. */
    method OnEventsMethodChange(m: EventsMethod)
      modifies this
      ensures store == old(store)["eventsMethod" := Method(m)]
      ensures showDetailedEvents <==> m == SelectIndividual
      ensures webhookEvents == old(webhookEvents) && projectId == old(projectId)
    {
      store := store["eventsMethod" := Method(m)];
      showDetailedEvents := m == SelectIndividual;
    }

    /**
     * `handleSubmit` for a new webhook: the payload handed to the create
     * action, after which the form is reset and the category boxes hidden;
     * on failure nothing changes.
     */
    method HandleSubmitNew(organizationId: Option<int>) returns (payload: Option<RawWebhookData>)
      modifies this
      ensures payload == NewWebhookData(old(store), webhookEvents, projectId, organizationId)
      ensures payload.Some? ==> store == InitialStore && !showDetailedEvents
      ensures payload.None? ==> store == old(store) && showDetailedEvents == old(showDetailedEvents)
      ensures webhookEvents == old(webhookEvents) && projectId == old(projectId)
    {
      payload := NewWebhookData(store, webhookEvents, projectId, organizationId);
      if payload.Some? {
        store := InitialStore;
        showDetailedEvents := false;
      }
    }

    /**
     * `handleSubmit` for an existing webhook: on valid values its fields are
     * overwritten in place, then the form is reset; on invalid values nothing
     * changes.
     */
    method HandleSubmitEdit(w: Webhook) returns (updated: bool)
      modifies this, w
      ensures updated <==> RequiredPresent(old(store))
      ensures !updated ==> unchanged(w) && unchanged(this)
      ensures updated ==>
        && w.description == Get(old(store), "description") && w.targetURL == old(store)["targetURL"]
        && w.secret == Get(old(store), "secret") && w.contentType == old(store)["contentType"]
        && w.isActive == Get(old(store), "isActive") && w.enableSSL == Get(old(store), "enableSSL")
        && w.events == CollectEvents(MethodOf(old(store)), old(store), webhookEvents)
        && store == InitialStore && !showDetailedEvents
      ensures webhookEvents == old(webhookEvents) && projectId == old(projectId)
    {
      var values := store;
      if !RequiredPresent(values) {
        return false;
      }
      w.description := Get(values, "description");
      w.targetURL := Get(values, "targetURL");
      w.secret := Get(values, "secret");
      w.contentType := Get(values, "contentType");
      w.isActive := Get(values, "isActive");
      w.enableSSL := Get(values, "enableSSL");
      w.events := CollectEvents(MethodOf(values), values, webhookEvents);
      store := InitialStore;
      showDetailedEvents := false;
      updated := true;
    }
  }
}
