/** An event as one person's chat sees it (internal/httpserver/personal.go): it names only them, and
    of an Alertmanager group it keeps only the alerts that name them or nobody. fold is the lower
    case of a character. */
module Personal {
  import opened Places
  import opened Text

  datatype Option<T> = None | Some(value: T)

  type Labels = map<string, string>

  const RecipientLabel := "teamster_recipient"

  datatype Alert = Alert(labels: Labels, detail: Detail)

  /** What the group's flat fields repeat of its only alert; the zero value is no detail. */
  datatype Detail = Detail(annotations: Labels, startsAt: int, endsAt: int, generatorURL: string)

  const NoDetail := Detail(map[], 0, 0, "")

  datatype AlertGroup = AlertGroup(alerts: seq<Alert>, commonLabels: Labels, groupLabels: Labels, groupKey: string, flat: Detail)

  /** rest is what personalEvent leaves alone: title, text, card and the like. */
  datatype Event = Event(labels: Labels, universal: Option<seq<string>>, alertmanager: Option<AlertGroup>, rest: string)

  datatype Person = Person(id: string, upn: string, mail: string)

  // Lists whose items are dropped or changed one by one.

  function FilterMap<A, B>(f: A -> Option<B>, xs: seq<A>, n: nat): seq<B>
    requires n <= |xs|
  {
    if n == 0 then []
    else FilterMap(f, xs, n - 1) + ToSeq(f(xs[n - 1]))
  }

  function ToSeq<T>(o: Option<T>): seq<T> { if o.Some? then [o.value] else [] }

  lemma {:induction false} AllMapped<A(!new), B(!new)>(f: A -> Option<B>, xs: seq<A>, n: nat, p: B -> bool)
    requires n <= |xs| && forall x: A :: f(x).Some? ==> p(f(x).value)
    ensures forall i :: 0 <= i < |FilterMap(f, xs, n)| ==> p(FilterMap(f, xs, n)[i])
  {
    if n > 0 { AllMapped(f, xs, n - 1, p); }
  }

  lemma {:induction false} SamePrefix<A, B>(f: A -> Option<B>, xs: seq<A>, ys: seq<A>, n: nat)
    requires n <= |xs| && n <= |ys| && forall i :: 0 <= i < n ==> xs[i] == ys[i]
    ensures FilterMap(f, xs, n) == FilterMap(f, ys, n)
  {
    if n > 0 { SamePrefix(f, xs, ys, n - 1); }
  }

  /** If what comes out of an item comes out of it again, so does the whole list. */
  lemma {:induction false} MappedAgain<A(!new)>(f: A -> Option<A>, xs: seq<A>, n: nat)
    requires n <= |xs| && forall x: A :: f(x).Some? ==> f(f(x).value) == f(x)
    ensures FilterMap(f, FilterMap(f, xs, n), |FilterMap(f, xs, n)|) == FilterMap(f, xs, n)
  {
    if n > 0 {
      MappedAgain(f, xs, n - 1);
      SamePrefix(f, FilterMap(f, xs, n), FilterMap(f, xs, n - 1), |FilterMap(f, xs, n - 1)|);
    }
  }

  /** Where the items that are left were. */
  lemma {:induction false} MappedPlaces<A, B>(f: A -> Option<B>, xs: seq<A>, n: nat) returns (at: seq<nat>)
    requires n <= |xs|
    ensures var ys := FilterMap(f, xs, n);
            && |at| == |ys| && Increasing(at)
            && (forall i :: 0 <= i < |at| ==> at[i] < n && f(xs[at[i]]) == Some(ys[i]))
            && forall k :: 0 <= k < n ==> (k in at <==> f(xs[k]).Some?)
  {
    at := [];
    if n > 0 {
      at := MappedPlaces(f, xs, n - 1);
      if f(xs[n - 1]).Some? { at := at + [n - 1]; }
    }
  }

  // Names.

  function Name(fold: char -> char, s: string): string { Lower(fold, Trim(s)) }

  function NamesOf(fold: char -> char, given: seq<string>): set<string> {
    set s | s in given && Name(fold, s) != "" :: Name(fold, s)
  }

  /** The loop over the person's id, UPN, mail and the addresses the event used. */
  method CollectNames(fold: char -> char, given: seq<string>) returns (names: set<string>)
    ensures names == NamesOf(fold, given) && "" !in names
    ensures forall s :: s in given && Trim(s) != "" ==> Lower(fold, Trim(s)) in names
    ensures forall name :: name in names ==> exists s :: s in given && Lower(fold, Trim(s)) == name
  {
    names := {};
    for i := 0 to |given|
      invariant names == NamesOf(fold, given[..i])
    {
      assert given[..i + 1] == given[..i] + [given[i]];
      var name := Name(fold, given[i]);
      if name != "" { names := names + {name}; }
    }
    assert given[..|given|] == given;
  }

  /** An entry names the person, ignoring space around it and case. */
  predicate IsOwn(fold: char -> char, names: set<string>, entry: string) { Name(fold, entry) in names }

  function Named(fold: char -> char, list: seq<string>, names: set<string>): seq<string> {
    if list == [] then []
    else
      var n := |list| - 1;
      Named(fold, list[..n], names) + if IsOwn(fold, names, list[n]) then [Trim(list[n])] else []
  }

  /** kept are the entries of a list that name the person, trimmed, in order; at says where each was. */
  ghost predicate KeptAt(fold: char -> char, names: set<string>, list: seq<string>, kept: seq<string>, at: seq<nat>) {
    && |at| == |kept| && Increasing(at) && Below(at, |list|)
    && (forall i :: 0 <= i < |at| ==> kept[i] == Trim(list[at[i]]))
    && forall k :: 0 <= k < |list| ==> (k in at <==> Lower(fold, Trim(list[k])) in names)
  }

  /** One entry more is kept, in its place, or is not. */
  lemma {:induction false} KeptNext(fold: char -> char, names: set<string>, list: seq<string>, entry: string, kept: seq<string>, at: seq<nat>)
    requires KeptAt(fold, names, list, kept, at)
    ensures if Lower(fold, Trim(entry)) in names then KeptAt(fold, names, list + [entry], kept + [Trim(entry)], at + [|list|])
            else KeptAt(fold, names, list + [entry], kept, at)
  {
    LastPlace(at, |list|);
  }

  lemma {:induction false} NamedAt(fold: char -> char, list: seq<string>, names: set<string>) returns (at: seq<nat>)
    ensures KeptAt(fold, names, list, Named(fold, list, names), at)
  {
    at := [];
    if list != [] {
      var n := |list| - 1;
      at := NamedAt(fold, list[..n], names);
      KeptNext(fold, names, list[..n], list[n], Named(fold, list[..n], names), at);
      assert list == list[..n] + [list[n]];
      if IsOwn(fold, names, list[n]) { at := at + [n]; }
    }
  }

  /** named. */
  method CollectNamed(fold: char -> char, list: seq<string>, names: set<string>) returns (kept: seq<string>, ghost at: seq<nat>)
    ensures KeptAt(fold, names, list, kept, at)
    ensures kept == Named(fold, list, names)
  {
    kept := [];
    for i := 0 to |list|
      invariant kept == Named(fold, list[..i], names)
    {
      assert list[..i + 1][..i] == list[..i];
      var entry := Trim(list[i]);
      if Lower(fold, entry) in names { kept := kept + [entry]; }
    }
    assert list[..|list|] == list;
    at := NamedAt(fold, list, names);
  }

  /** A trimmed entry of the person's own. */
  predicate Own(fold: char -> char, names: set<string>, entry: string) {
    entry != "" && Trim(entry) == entry && IsOwn(fold, names, entry)
  }

  predicate AllOwn(fold: char -> char, names: set<string>, list: seq<string>) {
    forall i :: 0 <= i < |list| ==> Own(fold, names, list[i])
  }

  lemma OwnEntry(fold: char -> char, names: set<string>, entry: string)
    requires "" !in names && IsOwn(fold, names, entry)
    ensures Own(fold, names, Trim(entry)) && Trim(entry) != ""
  {
    TrimTrims(entry);
    assert Trim(entry) == "" ==> Name(fold, entry) == "";
  }

  lemma {:induction false} NamedAreOwn(fold: char -> char, list: seq<string>, names: set<string>)
    requires "" !in names
    ensures AllOwn(fold, names, Named(fold, list, names))
    ensures Named(fold, list, names) == [] <==> forall i :: 0 <= i < |list| ==> !IsOwn(fold, names, list[i])
  {
    if list != [] {
      var n := |list| - 1;
      NamedAreOwn(fold, list[..n], names);
      if IsOwn(fold, names, list[n]) { OwnEntry(fold, names, list[n]); }
      assert forall i :: 0 <= i < n ==> list[..n][i] == list[i];
    }
  }

  lemma {:induction false} NamedHaveNoCommas(fold: char -> char, list: seq<string>, names: set<string>)
    requires NoCommas(list)
    ensures NoCommas(Named(fold, list, names))
  {
    if list != [] {
      var n := |list| - 1;
      NamedHaveNoCommas(fold, list[..n], names);
      TrimTrims(list[n]);
    }
  }

  lemma {:induction false} OwnStay(fold: char -> char, list: seq<string>, names: set<string>)
    requires AllOwn(fold, names, list)
    ensures Named(fold, list, names) == list
  {
    if list != [] {
      var n := |list| - 1;
      OwnStay(fold, list[..n], names);
      assert Own(fold, names, list[n]);
      assert list == list[..n] + [list[n]];
    }
  }

  // The recipient label.

  function OwnLabel(fold: char -> char, labels: Labels, names: set<string>): Labels {
    if RecipientLabel !in labels then labels
    else
      var kept := Named(fold, Split(labels[RecipientLabel]), names);
      if kept != [] then labels[RecipientLabel := Join(kept)] else labels - {RecipientLabel}
  }

  /** Of the labels only the recipients' is touched: what is left of it is its entries naming the
      person, and with none of them it goes. */
  ghost predicate Narrowed(fold: char -> char, names: set<string>, labels: Labels, out: Labels) {
    && (forall k :: k != "teamster_recipient" ==> (k in out <==> k in labels) && (k in labels ==> out[k] == labels[k]))
    && ("teamster_recipient" in out ==> "teamster_recipient" in labels)
    && ("teamster_recipient" in labels ==>
          exists kept, at :: KeptAt(fold, names, Split(labels["teamster_recipient"]), kept, at)
            && ("teamster_recipient" in out <==> kept != [])
            && ("teamster_recipient" in out ==> out["teamster_recipient"] == Join(kept)))
  }

  lemma OwnLabelNarrows(fold: char -> char, labels: Labels, names: set<string>)
    ensures Narrowed(fold, names, labels, OwnLabel(fold, labels, names))
  {
    if RecipientLabel in labels {
      var at := NamedAt(fold, Split(labels[RecipientLabel]), names);
    }
  }

  /** ownRecipientLabel. */
  method OwnRecipientLabel(fold: char -> char, labels: Labels, names: set<string>) returns (out: Labels)
    ensures Narrowed(fold, names, labels, out)
    ensures out == OwnLabel(fold, labels, names)
  {
    OwnLabelNarrows(fold, labels, names);
    if RecipientLabel !in labels { return labels; }
    out := labels;
    var kept, _ := CollectNamed(fold, Split(labels[RecipientLabel]), names);
    if |kept| > 0 { out := out[RecipientLabel := Join(kept)]; } else { out := out - {RecipientLabel}; }
  }

  /** Only the recipient label can change, and what is left of it names the person alone. */
  predicate NamesOnly(fold: char -> char, names: set<string>, labels: Labels) {
    RecipientLabel in labels ==> AllOwn(fold, names, Split(labels[RecipientLabel]))
  }

  /** Of what is left of a label everything is left. */
  lemma {:induction false} KeptLabel(fold: char -> char, raw: string, names: set<string>)
    requires "" !in names
    ensures var kept := Named(fold, Split(raw), names);
            && (kept != [] <==> NamesPerson(fold, names, raw))
            && (kept != [] ==> Split(Join(kept)) == kept && AllOwn(fold, names, kept) && Named(fold, kept, names) == kept)
  {
    var kept := Named(fold, Split(raw), names);
    SplitParts(raw);
    NamedAreOwn(fold, Split(raw), names);
    NamedHaveNoCommas(fold, Split(raw), names);
    if kept != [] {
      SplitJoin(kept);
      OwnStay(fold, kept, names);
    }
  }

  lemma {:induction false} OwnLabelNamesOnly(fold: char -> char, labels: Labels, names: set<string>)
    requires "" !in names
    ensures var out := OwnLabel(fold, labels, names);
            && NamesOnly(fold, names, out)
            && OwnLabel(fold, out, names) == out
            && (forall k :: k != RecipientLabel ==> (k in out <==> k in labels) && (k in labels ==> out[k] == labels[k]))
            && (RecipientLabel in out <==> RecipientLabel in labels && NamesPerson(fold, names, labels[RecipientLabel]))
  {
    if RecipientLabel in labels { KeptLabel(fold, labels[RecipientLabel], names); }
  }

  // The alerts.

  function LabelOf(labels: Labels): string { if RecipientLabel in labels then labels[RecipientLabel] else "" }

  /** Some entry of the label names the person. */
  predicate NamesPerson(fold: char -> char, names: set<string>, raw: string) {
    exists i :: 0 <= i < |Split(raw)| && IsOwn(fold, names, Split(raw)[i])
  }

  /** The label has no entry but space. */
  predicate NamesNobody(raw: string) { forall i :: 0 <= i < |Split(raw)| ==> Trim(Split(raw)[i]) == "" }

  predicate Keeps(fold: char -> char, names: set<string>, raw: string) {
    Trim(raw) == "" || Named(fold, Split(raw), names) != []
  }

  /** What becomes of one alert: dropped, or kept with its label narrowed. */
  function OwnAlert(fold: char -> char, names: set<string>): Alert -> Option<Alert> {
    (alert: Alert) =>
      if Keeps(fold, names, LabelOf(alert.labels)) then Some(alert.(labels := OwnLabel(fold, alert.labels, names))) else None
  }

  function OwnGroup(fold: char -> char, am: AlertGroup, names: set<string>): AlertGroup {
    var alerts := FilterMap(OwnAlert(fold, names), am.alerts, |am.alerts|);
    am.(alerts := alerts, commonLabels := OwnLabel(fold, am.commonLabels, names),
        flat := if |alerts| == 1 then alerts[0].detail else NoDetail)
  }

  function PersonalEvent(fold: char -> char, ev: Event, given: seq<string>): Event {
    var names := NamesOf(fold, given);
    ev.(labels := OwnLabel(fold, ev.labels, names),
        universal := if ev.universal.Some? then Some(Named(fold, ev.universal.value, names)) else None,
        alertmanager := if ev.alertmanager.Some? then Some(OwnGroup(fold, ev.alertmanager.value, names)) else None)
  }

  /** The alerts in own are those of the group whose recipient label is blank or names the person, in
      order, each narrowed to the person; at says where each was. */
  ghost predicate AlertsAt(fold: char -> char, names: set<string>, alerts: seq<Alert>, own: seq<Alert>, at: seq<nat>) {
    && |at| == |own| && Increasing(at) && Below(at, |alerts|)
    && (forall i :: 0 <= i < |at| ==>
          own[i].detail == alerts[at[i]].detail && Narrowed(fold, names, alerts[at[i]].labels, own[i].labels))
    && forall k :: 0 <= k < |alerts| ==> (k in at <==> ForThem(fold, names, alerts[k].labels))
  }

  predicate ForThem(fold: char -> char, names: set<string>, labels: Labels) {
    "teamster_recipient" in labels && Trim(labels["teamster_recipient"]) != "" ==>
      NamesPerson(fold, names, labels["teamster_recipient"])
  }

  lemma {:induction false} AlertsKept(fold: char -> char, am: AlertGroup, names: set<string>) returns (at: seq<nat>)
    ensures AlertsAt(fold, names, am.alerts, OwnGroup(fold, am, names).alerts, at)
  {
    at := AlertsInOrder(fold, am, names);
    var own := OwnGroup(fold, am, names).alerts;
    forall i | 0 <= i < |at|
      ensures own[i].detail == am.alerts[at[i]].detail && Narrowed(fold, names, am.alerts[at[i]].labels, own[i].labels)
    {
      OwnLabelNarrows(fold, am.alerts[at[i]].labels, names);
    }
    forall k | 0 <= k < |am.alerts|
      ensures k in at <==> ForThem(fold, names, am.alerts[k].labels)
    {
      KeptIfFor(fold, names, am.alerts[k].labels);
    }
  }

  lemma {:induction false} KeptIfFor(fold: char -> char, names: set<string>, labels: Labels)
    ensures Keeps(fold, names, LabelOf(labels)) <==> ForThem(fold, names, labels)
  {
    var list := Split(LabelOf(labels));
    var at := NamedAt(fold, list, names);
    assert at != [] ==> at[0] in at;
    assert Trim("") == "";
  }

  /** A group as one person sees it: their alerts, the common labels narrowed, and the flat fields
      those of the only alert left, if it is the only one. */
  ghost predicate GroupFor(fold: char -> char, names: set<string>, am: AlertGroup, own: AlertGroup) {
    && own.groupLabels == am.groupLabels && own.groupKey == am.groupKey
    && Narrowed(fold, names, am.commonLabels, own.commonLabels)
    && (exists at :: AlertsAt(fold, names, am.alerts, own.alerts, at))
    && own.flat == if |own.alerts| == 1 then own.alerts[0].detail else Detail(map[], 0, 0, "")
  }

  /** ownAlerts: the alerts addressed to the person or to nobody. */
  method CollectAlerts(fold: char -> char, am: AlertGroup, names: set<string>) returns (own: AlertGroup)
    ensures GroupFor(fold, names, am, own)
    ensures own == OwnGroup(fold, am, names)
  {
    ghost var at := AlertsKept(fold, am, names);
    var common := OwnRecipientLabel(fold, am.commonLabels, names);
    var alerts := KeepAlerts(fold, am.alerts, names);
    own := am.(commonLabels := common, alerts := alerts, flat := NoDetail);
    if |own.alerts| == 1 { own := own.(flat := own.alerts[0].detail); }
  }

  /** Its loop. */
  method KeepAlerts(fold: char -> char, alerts: seq<Alert>, names: set<string>) returns (own: seq<Alert>)
    ensures own == FilterMap(OwnAlert(fold, names), alerts, |alerts|)
  {
    own := [];
    for i := 0 to |alerts|
      invariant own == FilterMap(OwnAlert(fold, names), alerts, i)
    {
      var kept := KeepAlert(fold, alerts[i], names);
      OneMore(OwnAlert(fold, names), alerts, i);
      own := own + ToSeq(kept);
    }
  }

  lemma OneMore<A, B>(f: A -> Option<B>, xs: seq<A>, n: nat)
    requires n < |xs|
    ensures FilterMap(f, xs, n + 1) == FilterMap(f, xs, n) + ToSeq(f(xs[n]))
  {}

  /** One turn of it. */
  method KeepAlert(fold: char -> char, alert: Alert, names: set<string>) returns (own: Option<Alert>)
    ensures own == OwnAlert(fold, names)(alert)
  {
    var raw := LabelOf(alert.labels);
    var kept, _ := CollectNamed(fold, Split(raw), names);
    if Trim(raw) != "" && |kept| == 0 { return None; }
    var labels := OwnRecipientLabel(fold, alert.labels, names);
    own := Some(alert.(labels := labels));
  }

  /** The event as the person with these names sees it. */
  ghost predicate EventFor(fold: char -> char, names: set<string>, ev: Event, own: Event) {
    && own.rest == ev.rest && Narrowed(fold, names, ev.labels, own.labels)
    && own.universal.Some? == ev.universal.Some? && own.alertmanager.Some? == ev.alertmanager.Some?
    && (ev.universal.Some? ==> exists at :: KeptAt(fold, names, ev.universal.value, own.universal.value, at))
    && (ev.alertmanager.Some? ==> GroupFor(fold, names, ev.alertmanager.value, own.alertmanager.value))
  }

  /** personalEvent. The names are the person's id, UPN, mail and the addresses used, without space
      around them and in lower case. */
  method MakePersonal(fold: char -> char, ev: Event, person: Person, addresses: seq<string>) returns (own: Event, ghost names: set<string>)
    ensures EventFor(fold, names, ev, own)
    ensures forall s :: s in [person.id, person.upn, person.mail] + addresses && Trim(s) != "" ==> Lower(fold, Trim(s)) in names
    ensures forall name :: name in names ==>
              name != "" && exists s :: s in [person.id, person.upn, person.mail] + addresses && Lower(fold, Trim(s)) == name
    ensures own == PersonalEvent(fold, ev, [person.id, person.upn, person.mail] + addresses)
  {
    var theirs := CollectNames(fold, [person.id, person.upn, person.mail] + addresses);
    names := theirs;
    var labels := OwnRecipientLabel(fold, ev.labels, theirs);
    own := ev.(labels := labels);
    if own.universal.Some? {
      var kept, _ := CollectNamed(fold, own.universal.value, theirs);
      own := own.(universal := Some(kept));
    }
    if own.alertmanager.Some? {
      var am := CollectAlerts(fold, own.alertmanager.value, theirs);
      own := own.(alertmanager := Some(am));
    }
  }

  // What the person sees.

  lemma NoEmptyName(fold: char -> char, given: seq<string>)
    ensures "" !in NamesOf(fold, given)
  {}

  /** Every list and label left in the event names the person alone. */
  predicate ShowsOnly(fold: char -> char, names: set<string>, ev: Event) {
    && NamesOnly(fold, names, ev.labels)
    && (ev.universal.Some? ==> AllOwn(fold, names, ev.universal.value))
    && (ev.alertmanager.Some? ==>
          && NamesOnly(fold, names, ev.alertmanager.value.commonLabels)
          && AllNameOnly(fold, names, ev.alertmanager.value.alerts))
  }

  predicate AllNameOnly(fold: char -> char, names: set<string>, alerts: seq<Alert>) {
    forall i :: 0 <= i < |alerts| ==> NamesOnly(fold, names, alerts[i].labels)
  }

  lemma AlertsNameOnly(fold: char -> char, alerts: seq<Alert>, names: set<string>)
    requires "" !in names
    ensures AllNameOnly(fold, names, FilterMap(OwnAlert(fold, names), alerts, |alerts|))
  {
    var p := (alert: Alert) => NamesOnly(fold, names, alert.labels);
    forall alert: Alert | OwnAlert(fold, names)(alert).Some?
      ensures p(OwnAlert(fold, names)(alert).value)
    {
      OwnLabelNamesOnly(fold, alert.labels, names);
    }
    AllMapped(OwnAlert(fold, names), alerts, |alerts|, p);
    var own := FilterMap(OwnAlert(fold, names), alerts, |alerts|);
    assert forall i :: 0 <= i < |own| ==> p(own[i]);
  }

  /** Only entries naming the person are left, in the labels, the common labels, the alerts' labels
      and the recipients. */
  lemma OnlyOwnNamesLeft(fold: char -> char, ev: Event, given: seq<string>)
    ensures ShowsOnly(fold, NamesOf(fold, given), PersonalEvent(fold, ev, given))
  {
    var names := NamesOf(fold, given);
    NoEmptyName(fold, given);
    OwnLabelNamesOnly(fold, ev.labels, names);
    if ev.universal.Some? { NamedAreOwn(fold, ev.universal.value, names); }
    if ev.alertmanager.Some? {
      OwnLabelNamesOnly(fold, ev.alertmanager.value.commonLabels, names);
      AlertsNameOnly(fold, ev.alertmanager.value.alerts, names);
    }
  }

  /** An alert kept once is kept again, as it is. */
  lemma {:induction false} KeptAgain(fold: char -> char, alert: Alert, names: set<string>)
    requires "" !in names && OwnAlert(fold, names)(alert).Some?
    ensures OwnAlert(fold, names)(OwnAlert(fold, names)(alert).value) == OwnAlert(fold, names)(alert)
  {
    OwnLabelNamesOnly(fold, alert.labels, names);
    if RecipientLabel in alert.labels { KeptLabel(fold, alert.labels[RecipientLabel], names); }
  }

  lemma AlertsAgain(fold: char -> char, alerts: seq<Alert>, names: set<string>)
    requires "" !in names
    ensures var own := FilterMap(OwnAlert(fold, names), alerts, |alerts|); FilterMap(OwnAlert(fold, names), own, |own|) == own
  {
    forall alert: Alert | OwnAlert(fold, names)(alert).Some?
      ensures OwnAlert(fold, names)(OwnAlert(fold, names)(alert).value) == OwnAlert(fold, names)(alert)
    {
      KeptAgain(fold, alert, names);
    }
    MappedAgain(OwnAlert(fold, names), alerts, |alerts|);
  }

  lemma {:induction false} GroupAgain(fold: char -> char, am: AlertGroup, names: set<string>)
    requires "" !in names
    ensures var own := OwnGroup(fold, am, names); OwnGroup(fold, own, names) == own
  {
    OwnLabelNamesOnly(fold, am.commonLabels, names);
    AlertsAgain(fold, am.alerts, names);
  }

  lemma {:induction false} ListAgain(fold: char -> char, list: seq<string>, names: set<string>)
    requires "" !in names
    ensures var own := Named(fold, list, names); Named(fold, own, names) == own
  {
    NamedAreOwn(fold, list, names);
    OwnStay(fold, Named(fold, list, names), names);
  }

  /** A person's copy of their copy is their copy. */
  lemma {:induction false} Idempotent(fold: char -> char, ev: Event, given: seq<string>)
    ensures var own := PersonalEvent(fold, ev, given); PersonalEvent(fold, own, given) == own
  {
    var names := NamesOf(fold, given);
    NoEmptyName(fold, given);
    OwnLabelNamesOnly(fold, ev.labels, names);
    if ev.universal.Some? { ListAgain(fold, ev.universal.value, names); }
    if ev.alertmanager.Some? { GroupAgain(fold, ev.alertmanager.value, names); }
  }

  /** Which alerts are kept: those that name the person, and those whose label is blank. */
  lemma KeptMeans(fold: char -> char, names: set<string>, raw: string)
    requires "" !in names
    ensures Keeps(fold, names, raw) <==> NamesPerson(fold, names, raw) || Trim(raw) == ""
  {
    NamedAreOwn(fold, Split(raw), names);
  }

  /** That is "the person or nobody" exactly unless the label is a list of nothing: commas, and no
      name between them. */
  lemma KeptIsPersonOrNobody(fold: char -> char, names: set<string>, raw: string)
    requires "" !in names
    ensures (Keeps(fold, names, raw) <==> NamesPerson(fold, names, raw) || NamesNobody(raw)) <==>
            !(Trim(raw) != "" && NamesNobody(raw))
  {
    KeptMeans(fold, names, raw);
    if NamesPerson(fold, names, raw) {
      var i :| 0 <= i < |Split(raw)| && IsOwn(fold, names, Split(raw)[i]);
      OwnEntry(fold, names, Split(raw)[i]);
    }
    if Trim(raw) == "" { BlankIsNobody(raw); }
  }

  lemma {:induction false} AllSpace(s: string)
    requires forall c :: c in s ==> IsSpace(c)
    ensures Split(s) == [s] && Trim(s) == ""
  {
    AllSpaceLeft(s);
    if s != "" { AllSpace(s[1..]); assert s == [s[0]] + s[1..]; }
  }

  lemma {:induction false} AllSpaceLeft(s: string)
    requires forall c :: c in s ==> IsSpace(c)
    ensures TrimLeft(s) == ""
  {
    if s != "" { AllSpaceLeft(s[1..]); }
  }

  lemma {:induction false} TrimmedAway(s: string)
    requires Trim(s) == ""
    ensures forall c :: c in s ==> IsSpace(c)
  {
    if s != "" {
      if IsSpace(s[0]) {
        TrimmedAway(s[1..]);
        assert s == [s[0]] + s[1..];
      } else {
        FirstStays(s);
      }
    }
  }

  lemma {:induction false} FirstStays(s: string)
    requires s != "" && !IsSpace(s[0])
    ensures TrimRight(s) != ""
  {
    if IsSpace(s[|s| - 1]) { FirstStays(s[..|s| - 1]); }
  }

  lemma BlankIsNobody(raw: string)
    requires Trim(raw) == ""
    ensures NamesNobody(raw)
  {
    TrimmedAway(raw);
    AllSpace(raw);
  }

  /** Such a label: an alert whose label is a single comma names nobody, and is dropped from
      everyone's copy. */
  lemma CommaIsDropped(fold: char -> char, names: set<string>)
    requires "" !in names
    ensures NamesNobody(",") && !Keeps(fold, names, ",")
  {
    assert Split(",") == ["", ""];
    KeptMeans(fold, names, ",");
    assert Trim("") == "";
    TrimmedOnce();
  }

  lemma TrimmedOnce()
    ensures Trim(",") == ","
  {}

  /** The alerts that are left are exactly those kept, in their order, each with its own detail and
      its label narrowed: at says where each was. The flat fields are those of the only alert kept. */
  lemma {:induction false} AlertsInOrder(fold: char -> char, am: AlertGroup, names: set<string>) returns (at: seq<nat>)
    ensures var own := OwnGroup(fold, am, names).alerts;
            && |at| == |own| && Increasing(at)
            && (forall k :: 0 <= k < |am.alerts| ==> (k in at <==> Keeps(fold, names, LabelOf(am.alerts[k].labels))))
            && forall i :: 0 <= i < |at| ==>
                 at[i] < |am.alerts| && own[i] == am.alerts[at[i]].(labels := OwnLabel(fold, am.alerts[at[i]].labels, names))
    ensures OwnGroup(fold, am, names).flat == if |at| == 1 && at[0] < |am.alerts| then am.alerts[at[0]].detail else NoDetail
  {
    at := MappedPlaces(OwnAlert(fold, names), am.alerts, |am.alerts|);
    forall k | 0 <= k < |am.alerts|
      ensures k in at <==> Keeps(fold, names, LabelOf(am.alerts[k].labels))
    {
      assert OwnAlert(fold, names)(am.alerts[k]).Some? <==> Keeps(fold, names, LabelOf(am.alerts[k].labels));
    }
  }
}
