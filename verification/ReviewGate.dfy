/** The file-backed review gate for memory cards: the hook that queues and
    publishes them, and the command line by which a reviewer decides. */
module ReviewGate {
  import opened Wrappers

  datatype Json =
    | Null
    | Bool(b: bool)
    | Number(x: real)
    | NonFinite
    | Text(s: string)
    | List(items: seq<Json>)
    | Object(fields: map<string, Json>)

  type Card = map<string, Json>

  datatype Mode = Mandatory | Auto
  datatype Status = Pending | Approved | Rejected | Redacted
  datatype Kind = ProgramCard | MemoryCard

  datatype Item = Item(kind: Kind, status: Status, sourceHash: string, sourceCard: Card, overrides: Card, reviewedAt: Option<int>)

  datatype Config = Config(mode: Mode, primaryKey: string, fingerprint: Card -> string)

  const MEMORY_FIELDS: set<string> := {"description", "keywords", "strategy", "task_description"}
  const UNSCIENTIFIC: set<Json> := {Text("diagnostic"), Text("invalid"), Text("smoke")}

  function Get(card: Card, key: string): Json { if key in card then card[key] else Null }

  // ----- validity -----

  predicate HasValidResult(card: Card, primaryKey: string) {
    && Get(card, "verdict") !in UNSCIENTIFIC
    && Get(card, "metrics").Object?
    && (var metrics := Get(card, "metrics").fields;
        && Get(metrics, "is_valid").Number? && Get(metrics, "is_valid").x > 0.0
        && (if "fitness" in card then card["fitness"] else Get(metrics, primaryKey)).Number?)
  }

  /** Field by field: a scientific verdict or none, a metrics object with a positive
      number as its validity, and a number as fitness, which the card's own field
      gives before the primary metric does. */
  lemma {:induction false} ValidityByFields(card: Card, primaryKey: string)
    ensures HasValidResult(card, primaryKey) <==>
      && ("verdict" in card ==> card["verdict"] != Text("diagnostic") && card["verdict"] != Text("invalid") && card["verdict"] != Text("smoke"))
      && "metrics" in card && card["metrics"].Object?
      && (var metrics := card["metrics"].fields;
          && "is_valid" in metrics && metrics["is_valid"].Number? && metrics["is_valid"].x > 0.0
          && ("fitness" in card ==> card["fitness"].Number?)
          && ("fitness" !in card ==> primaryKey in metrics && metrics[primaryKey].Number?))
  {
  }

  // ----- one card's place at the desk -----

  /** The fingerprint this process last saw, and the item on file. */
  datatype Desk = Desk(hash: Option<string>, item: Option<Item>)

  function Fresh(cfg: Config, card: Card): Item {
    Item(if Get(card, "category") == Text("program") then ProgramCard else MemoryCard,
         if !HasValidResult(card, cfg.primaryKey) then Rejected else if cfg.mode == Auto then Approved else Pending,
         cfg.fingerprint(card), card, map[], None)
  }

  predicate NeedsItem(cfg: Config, d: Desk, card: Card) {
    && d.hash != Some(cfg.fingerprint(card))
    && (d.item.None? || d.item.value.sourceHash != cfg.fingerprint(card))
  }

  function Examine(cfg: Config, d: Desk, card: Card): Desk {
    Desk(Some(cfg.fingerprint(card)), if NeedsItem(cfg, d, card) then Some(Fresh(cfg, card)) else d.item)
  }

  /** A desk when the cards outside `rest` have been examined. */
  function Examined(cfg: Config, cards: map<string, Card>, rest: set<string>, d: Desk, id: string): Desk {
    if id in cards && id !in rest then Examine(cfg, d, cards[id]) else d
  }

  predicate Queues(cfg: Config, d: Desk, card: Card) { NeedsItem(cfg, d, card) && Fresh(cfg, card).status == Pending }

  // ----- the reviewer -----

  datatype Verdict = Approve | Reject | Redact(fields: seq<(string, Json)>)

  predicate Allowed(v: Verdict) { v.Redact? ==> forall i :: 0 <= i < |v.fields| ==> v.fields[i].0 in MEMORY_FIELDS }

  function Merge(overrides: Card, fields: seq<(string, Json)>): Card {
    if fields == [] then overrides
    else Merge(overrides, fields[..|fields| - 1])[fields[|fields| - 1].0 := fields[|fields| - 1].1]
  }

  /** A refused redaction leaves the item on file as it was. */
  function Decide(item: Item, v: Verdict, now: int): Item {
    match v
    case Approve => item.(status := Approved, reviewedAt := Some(now))
    case Reject => item.(status := Rejected, reviewedAt := Some(now))
    case Redact(fields) =>
      if Allowed(v) then item.(overrides := Merge(item.overrides, fields), status := Redacted, reviewedAt := Some(now))
      else item
  }

  // ----- histories -----

  datatype Event = Run(cards: map<string, Card>) | Act(id: string, verdict: Verdict, now: int) | Restart

  function Step(cfg: Config, d: Desk, e: Event, id: string): Desk {
    match e
    case Run(cards) => if id in cards then Examine(cfg, d, cards[id]) else d
    case Act(i, v, now) => if i == id && d.item.Some? then d.(item := Some(Decide(d.item.value, v, now))) else d
    case Restart => d.(hash := None)
  }

  function After(cfg: Config, log: seq<Event>, id: string): Desk {
    if log == [] then Desk(None, None) else Step(cfg, After(cfg, log[..|log| - 1], id), log[|log| - 1], id)
  }

  lemma {:induction false} AfterOneMore(cfg: Config, log: seq<Event>, e: Event, id: string)
    ensures After(cfg, log + [e], id) == Step(cfg, After(cfg, log, id), e, id)
  {
    assert (log + [e])[..|log|] == log;
  }

  // ----- publication -----

  predicate Publishable(cfg: Config, card: Card, item: Option<Item>) {
    HasValidResult(card, cfg.primaryKey) && item.Some? && item.value.status in {Approved, Redacted}
  }

  function Visible(card: Card, item: Item): Card { if item.status == Redacted then card + item.overrides else card }

  /** The published card is the reviewed one, up to the four fields. */
  ghost predicate Reviewed(cfg: Config, card: Card, item: Item, visible: Card) {
    && HasValidResult(card, cfg.primaryKey)
    && (item.status == Approved || item.status == Redacted)
    && item.sourceHash == cfg.fingerprint(card)
    && forall key :: key !in MEMORY_FIELDS ==> (key in visible <==> key in card) && Get(visible, key) == Get(card, key)
  }

  function Publication(cfg: Config, cards: map<string, Card>, reviews: map<string, Item>): map<string, Card> {
    map id | id in cards && id in reviews && Publishable(cfg, cards[id], Some(reviews[id])) :: Visible(cards[id], reviews[id])
  }

  // ----- the hook -----

  function DeskAt(hashes: map<string, string>, reviews: map<string, Item>, id: string): Desk {
    Desk(if id in hashes then Some(hashes[id]) else None, if id in reviews then Some(reviews[id]) else None)
  }

  /** Items are never removed, and a decided one never becomes pending again. */
  predicate StayDecided(before: map<string, Item>, now: map<string, Item>) {
    forall id :: id in before ==> id in now && (before[id].status != Pending ==> now[id].status != Pending)
  }

  class ReviewedMemoryHook {
    const cfg: Config
    var cardHashes: map<string, string>
    var reviews: map<string, Item>
    var published: map<string, Card>
    ghost var log: seq<Event>

    ghost predicate Valid()
      reads this`cardHashes, this`reviews, this`log
    {
      forall id :: DeskAt(cardHashes, reviews, id) == After(cfg, log, id)
    }

    constructor (cfg: Config)
      ensures Valid() && this.cfg == cfg && log == [] && published == map[]
    {
      this.cfg := cfg;
      cardHashes, reviews, published, log := map[], map[], map[], [];
    }

    /** A new process: only the files remain. */
    method Resume()
      requires Valid()
      modifies this`cardHashes, this`log
      ensures Valid() && log == old(log) + [Restart]
    {
      cardHashes := map[];
      log := log + [Restart];
      forall id {
        AfterOneMore(cfg, old(log), Restart, id);
      }
    }

    /** `autoresearch.review approve | reject | redact`. */
    method Review(id: string, verdict: Verdict, now: int)
      requires Valid()
      modifies this`reviews, this`log
      ensures Valid() && log == old(log) + [Act(id, verdict, now)]
      ensures StayDecided(old(reviews), reviews)
    {
      if id in reviews {
        reviews := reviews[id := Decide(reviews[id], verdict, now)];
      }
      log := log + [Act(id, verdict, now)];
      forall i {
        AfterOneMore(cfg, old(log), Act(id, verdict, now), i);
      }
    }

    method Inspect(id: string, card: Card) returns (queued: bool)
      modifies this`cardHashes, this`reviews
      ensures DeskAt(cardHashes, reviews, id) == Examine(cfg, old(DeskAt(cardHashes, reviews, id)), card)
      ensures forall i :: i != id ==> DeskAt(cardHashes, reviews, i) == old(DeskAt(cardHashes, reviews, i))
      ensures queued <==> Queues(cfg, old(DeskAt(cardHashes, reviews, id)), card)
    {
      var fingerprint := cfg.fingerprint(card);
      if id in cardHashes && cardHashes[id] == fingerprint {
        return false;
      }
      cardHashes := cardHashes[id := fingerprint];
      if id in reviews && reviews[id].sourceHash == fingerprint {
        return false;
      }
      reviews := reviews[id := Fresh(cfg, card)];
      return reviews[id].status == Pending;
    }

    method Queue(cards: map<string, Card>) returns (queued: seq<string>)
      requires Valid()
      modifies this`cardHashes, this`reviews, this`log
      ensures Valid() && log == old(log) + [Run(cards)]
      ensures forall id :: id in queued <==> id in cards && Queues(cfg, After(cfg, old(log), id), cards[id])
      ensures forall id :: id in queued ==> id in reviews
    {
      queued := [];
      var rest := cards.Keys;
      ghost var hashes0, reviews0 := cardHashes, reviews;
      while rest != {}
        invariant rest <= cards.Keys && log == old(log)
        invariant forall id :: DeskAt(cardHashes, reviews, id) == Examined(cfg, cards, rest, DeskAt(hashes0, reviews0, id), id)
        invariant forall id ::
          id in queued <==> id in cards && id !in rest && Queues(cfg, DeskAt(hashes0, reviews0, id), cards[id])
        decreases |rest|
      {
        var id :| id in rest;
        rest := rest - {id};
        var pending := Inspect(id, cards[id]);
        if pending {
          queued := queued + [id];
        }
      }
      log := log + [Run(cards)];
      forall id
        ensures DeskAt(cardHashes, reviews, id) == After(cfg, log, id)
        ensures id in queued ==> id in reviews
      {
        AfterOneMore(cfg, old(log), Run(cards), id);
        assert DeskAt(hashes0, reviews0, id) == After(cfg, old(log), id);
      }
    }

    /** Polls one item while the reviewer works through `desk`; undecided at its
        end means that the hook is still waiting. */
    method WaitForDecision(id: string, desk: seq<Event>) returns (decided: bool, handled: nat)
      requires Valid() && id in reviews && OnlyActs(desk)
      modifies this`reviews, this`log
      ensures Valid() && handled <= |desk| && log == old(log) + desk[..handled]
      ensures StayDecided(old(reviews), reviews)
      ensures id in reviews && (decided <==> reviews[id].status != Pending)
      ensures !decided ==> handled == |desk|
    {
      handled := 0;
      while reviews[id].status == Pending && handled < |desk|
        invariant Valid() && handled <= |desk| && log == old(log) + desk[..handled]
        invariant StayDecided(old(reviews), reviews)
      {
        Review(desk[handled].id, desk[handled].verdict, desk[handled].now);
        assert desk[..handled + 1] == desk[..handled] + [desk[handled]];
        handled := handled + 1;
      }
      decided := reviews[id].status != Pending;
    }

    method PublishApprovedCards(cards: map<string, Card>)
      modifies this`published
      ensures published == Publication(cfg, cards, reviews)
    {
      var approved: map<string, Card> := map[];
      var rest := cards.Keys;
      while rest != {}
        invariant rest <= cards.Keys
        invariant forall id ::
          id in approved <==> id in cards && id !in rest && id in reviews && Publishable(cfg, cards[id], Some(reviews[id]))
        invariant forall id :: id in approved ==> approved[id] == Visible(cards[id], reviews[id])
        decreases |rest|
      {
        var id :| id in rest;
        rest := rest - {id};
        if !HasValidResult(cards[id], cfg.primaryKey) {
          continue;
        }
        if id !in reviews {
          continue;
        }
        var review := reviews[id];
        if review.status != Approved && review.status != Redacted {
          continue;
        }
        var visible := cards[id];
        if review.status == Redacted {
          visible := visible + review.overrides;
        }
        approved := approved[id := visible];
      }
      published := approved;
    }

    /** One step of the hook: queue, wait for the queued decisions, publish. */
    method Call(cards: map<string, Card>, desk: seq<Event>) returns (finished: bool, handled: nat)
      requires Valid() && OnlyActs(desk)
      modifies this`cardHashes, this`reviews, this`published, this`log
      ensures Valid() && handled <= |desk| && log == old(log) + [Run(cards)] + desk[..handled]
      ensures finished ==> published == Publication(cfg, cards, reviews)
      ensures finished ==> forall id :: id in published ==>
        id in cards && id in reviews && Reviewed(cfg, cards[id], reviews[id], published[id])
      ensures finished ==> forall id :: id in cards && Queues(cfg, After(cfg, old(log), id), cards[id]) ==>
        id in reviews && reviews[id].status != Pending
      ensures !finished ==> published == old(published) && handled == |desk|
    {
      var queued := Queue(cards);
      ghost var base := log;
      handled := 0;
      for i := 0 to |queued|
        invariant Valid() && handled <= |desk| && log == base + desk[..handled]
        invariant published == old(published)
        invariant forall j :: 0 <= j < |queued| ==> queued[j] in reviews
        invariant forall j :: 0 <= j < i ==> reviews[queued[j]].status != Pending
      {
        var decided, n := WaitForDecision(queued[i], desk[handled..]);
        assert desk[..handled] + desk[handled..][..n] == desk[..handled + n];
        handled := handled + n;
        if !decided {
          return false, handled;
        }
      }
      PublishApprovedCards(cards);
      forall id | id in published
        ensures id in cards && id in reviews && Reviewed(cfg, cards[id], reviews[id], published[id])
      {
        assert DeskAt(cardHashes, reviews, id) == After(cfg, log, id);
        PublishedIsReviewed(cfg, old(log), cards, desk[..handled], id);
      }
      return true, handled;
    }
  }

  predicate OnlyActs(desk: seq<Event>) { forall i :: 0 <= i < |desk| ==> desk[i].Act? }

  // ----- what every history keeps -----

  /** The remembered fingerprint is the one on file; the item's fingerprint is
      of the content shown to the reviewer; only the four fields are overridden. */
  predicate Bound(cfg: Config, d: Desk) {
    && (d.hash.Some? ==> d.item.Some? && d.item.value.sourceHash == d.hash.value)
    && (d.item.Some? ==>
          && d.item.value.sourceHash == cfg.fingerprint(d.item.value.sourceCard)
          && d.item.value.overrides.Keys <= MEMORY_FIELDS)
  }

  lemma {:induction false} MergeKeys(overrides: Card, fields: seq<(string, Json)>)
    requires overrides.Keys <= MEMORY_FIELDS && Allowed(Redact(fields))
    ensures Merge(overrides, fields).Keys <= MEMORY_FIELDS
  {
    if fields != [] {
      MergeKeys(overrides, fields[..|fields| - 1]);
    }
  }

  lemma {:induction false} EveryHistoryIsBound(cfg: Config, log: seq<Event>, id: string)
    ensures Bound(cfg, After(cfg, log, id))
  {
    if log != [] {
      var init, e := log[..|log| - 1], log[|log| - 1];
      EveryHistoryIsBound(cfg, init, id);
      var d := After(cfg, init, id);
      if e.Act? && e.verdict.Redact? && Allowed(e.verdict) && d.item.Some? {
        MergeKeys(d.item.value.overrides, e.verdict.fields);
      }
    }
  }

  /** Changed content withdraws the decision and the overrides; unchanged content
      keeps both, whatever restarts lie between. */
  lemma {:induction false} DecisionFollowsContent(cfg: Config, log: seq<Event>, cards: map<string, Card>, id: string)
    requires id in cards
    ensures var d := After(cfg, log, id); var d' := After(cfg, log + [Run(cards)], id);
      && d'.item.Some? && d'.item.value.sourceHash == cfg.fingerprint(cards[id])
      && (d.item.Some? && d.item.value.sourceHash == cfg.fingerprint(cards[id]) ==> d'.item == d.item)
      && (d.item.None? || d.item.value.sourceHash != cfg.fingerprint(cards[id]) ==> d'.item == Some(Fresh(cfg, cards[id])))
  {
    EveryHistoryIsBound(cfg, log, id);
    AfterOneMore(cfg, log, Run(cards), id);
  }

  /** The reviewer's acts leave the item's content alone. */
  lemma {:induction false} ActsKeepContent(cfg: Config, log: seq<Event>, desk: seq<Event>, id: string)
    requires OnlyActs(desk)
    ensures var d := After(cfg, log, id); var d' := After(cfg, log + desk, id);
      d'.item.Some? == d.item.Some? && (d.item.Some? ==>
        d'.item.value.sourceHash == d.item.value.sourceHash && d'.item.value.sourceCard == d.item.value.sourceCard)
  {
    if desk == [] {
      assert log + desk == log;
    } else {
      var n := |desk| - 1;
      ActsKeepContent(cfg, log, desk[..n], id);
      assert log + desk == (log + desk[..n]) + [desk[n]];
      AfterOneMore(cfg, log + desk[..n], desk[n], id);
    }
  }

  /** Until somebody reviews it, an item is rejected exactly when its content is
      invalid, let through only by the automatic mode, and overrides nothing. */
  lemma {:induction false} UntouchedItems(cfg: Config, log: seq<Event>, id: string)
    ensures var item := After(cfg, log, id).item;
      item.Some? && item.value.reviewedAt.None? ==>
        && item.value.overrides == map[] && item.value.status != Redacted
        && (item.value.status == Rejected <==> !HasValidResult(item.value.sourceCard, cfg.primaryKey))
        && (item.value.status == Approved ==> cfg.mode == Auto)
        && (item.value.status == Pending ==> cfg.mode == Mandatory)
  {
    if log != [] {
      UntouchedItems(cfg, log[..|log| - 1], id);
    }
  }

  ghost predicate Injective(f: Card -> string) { forall a, b :: f(a) == f(b) ==> a == b }

  /** Whatever runs, restarts and reviews came before: a card that a run publishes
      is valid, its review is approved or redacted and carries the fingerprint of
      the card as it is now, and the visible card differs from it in no field
      but the four. */
  lemma {:induction false} PublishedIsReviewed(cfg: Config, log: seq<Event>, cards: map<string, Card>, desk: seq<Event>, id: string)
    requires OnlyActs(desk) && id in cards
    requires Publishable(cfg, cards[id], After(cfg, log + [Run(cards)] + desk, id).item)
    ensures var item := After(cfg, log + [Run(cards)] + desk, id).item.value;
      && Reviewed(cfg, cards[id], item, Visible(cards[id], item))
      && (Injective(cfg.fingerprint) ==> item.sourceCard == cards[id])
  {
    DecisionFollowsContent(cfg, log, cards, id);
    ActsKeepContent(cfg, log + [Run(cards)], desk, id);
    EveryHistoryIsBound(cfg, log + [Run(cards)] + desk, id);
  }

  /** The item on file was let through by a reviewer who had this very content
      in front of them. */
  ghost predicate LetThrough(cfg: Config, log: seq<Event>, id: string, content: Card) {
    exists j :: 0 <= j < |log| && LetThroughAt(cfg, log, id, content, j)
  }

  ghost predicate LetThroughAt(cfg: Config, log: seq<Event>, id: string, content: Card, j: nat)
    requires j < |log|
  {
    && log[j].Act? && log[j].id == id && !log[j].verdict.Reject?
    && After(cfg, log[..j], id).item.Some? && After(cfg, log[..j], id).item.value.sourceCard == content
  }

  /** Under mandatory review nothing is let through without a reviewer's act on
      the same content. */
  lemma {:induction false} SomebodyApproved(cfg: Config, log: seq<Event>, id: string)
    requires cfg.mode == Mandatory && After(cfg, log, id).item.Some?
    requires After(cfg, log, id).item.value.status in {Approved, Redacted}
    ensures LetThrough(cfg, log, id, After(cfg, log, id).item.value.sourceCard)
  {
    assert log != [];
    var n := |log| - 1;
    var init, e := log[..n], log[n];
    var d, content := After(cfg, init, id), After(cfg, log, id).item.value.sourceCard;
    if e.Act? && e.id == id && !e.verdict.Reject? {
      assert LetThroughAt(cfg, log, id, content, n);
    } else {
      assert d.item == After(cfg, log, id).item;
      SomebodyApproved(cfg, init, id);
      var j :| 0 <= j < n && LetThroughAt(cfg, init, id, content, j);
      assert init[..j] == log[..j];
      assert LetThroughAt(cfg, log, id, content, j);
    }
  }

  /** The event does not bring other content for this card. */
  predicate KeepsContent(e: Event, id: string, card: Card) { e.Run? && id in e.cards ==> e.cards[id] == card }

  lemma {:induction false} StaysOnFile(cfg: Config, log: seq<Event>, between: seq<Event>, id: string, card: Card)
    requires After(cfg, log, id).item.Some? && After(cfg, log, id).item.value.sourceHash == cfg.fingerprint(card)
    requires forall i :: 0 <= i < |between| ==> KeepsContent(between[i], id, card)
    ensures var item := After(cfg, log + between, id).item; item.Some? && item.value.sourceHash == cfg.fingerprint(card)
  {
    if between == [] {
      assert log + between == log;
    } else {
      var n := |between| - 1;
      StaysOnFile(cfg, log, between[..n], id, card);
      assert log + between == (log + between[..n]) + [between[n]];
      AfterOneMore(cfg, log + between[..n], between[n], id);
    }
  }

  /** Once a run has examined a card, no later run queues it again while its
      content stays the same, whatever reviews, restarts and runs come between.
      In particular a run in a new process does not wait for an item that an
      earlier one had queued, even if nobody has decided it. */
  lemma {:induction false} RestartDoesNotQueueAgain(cfg: Config, log: seq<Event>, cards: map<string, Card>, between: seq<Event>, id: string)
    requires id in cards && forall i :: 0 <= i < |between| ==> KeepsContent(between[i], id, cards[id])
    ensures !Queues(cfg, After(cfg, log + [Run(cards)] + between, id), cards[id])
  {
    DecisionFollowsContent(cfg, log, cards, id);
    StaysOnFile(cfg, log + [Run(cards)], between, id, cards[id]);
  }

  /** What a run queues for the reviewer: under mandatory review, the valid cards
      whose present content is not on file. */
  lemma {:induction false} WhatIsQueued(cfg: Config, log: seq<Event>, card: Card, id: string)
    ensures Queues(cfg, After(cfg, log, id), card) <==>
      && cfg.mode == Mandatory && HasValidResult(card, cfg.primaryKey)
      && var item := After(cfg, log, id).item; item.None? || item.value.sourceHash != cfg.fingerprint(card)
  {
    EveryHistoryIsBound(cfg, log, id);
  }

  /** What a run puts on file for content that it has not filed before. */
  lemma {:induction false} WhatIsFiled(cfg: Config, log: seq<Event>, cards: map<string, Card>, id: string)
    requires id in cards
    requires var item := After(cfg, log, id).item; item.None? || item.value.sourceHash != cfg.fingerprint(cards[id])
    ensures var card := cards[id];
      After(cfg, log + [Run(cards)], id).item ==
      Some(Item(if "category" in card && card["category"] == Text("program") then ProgramCard else MemoryCard,
                if !HasValidResult(card, cfg.primaryKey) then Rejected else if cfg.mode == Mandatory then Pending else Approved,
                cfg.fingerprint(card), card, map[], None))
  {
    EveryHistoryIsBound(cfg, log, id);
    AfterOneMore(cfg, log, Run(cards), id);
  }

  /** What a reviewer's command leaves on file. */
  lemma {:induction false} WhatAnActDoes(cfg: Config, log: seq<Event>, id: string, v: Verdict, now: int)
    requires After(cfg, log, id).item.Some?
    ensures var item, filed := After(cfg, log, id).item.value, After(cfg, log + [Act(id, v, now)], id).item;
      && (v == Approve ==> filed == Some(item.(status := Approved, reviewedAt := Some(now))))
      && (v == Reject ==> filed == Some(item.(status := Rejected, reviewedAt := Some(now))))
      && (v.Redact? && (exists i :: 0 <= i < |v.fields| && v.fields[i].0 !in {"description", "keywords", "strategy", "task_description"}) ==>
            filed == Some(item))
      && (v.Redact? && (forall i :: 0 <= i < |v.fields| ==> v.fields[i].0 in {"description", "keywords", "strategy", "task_description"}) ==>
            filed.Some? && filed.value == item.(status := Redacted, reviewedAt := Some(now), overrides := filed.value.overrides)
            && forall k :: (forall i :: 0 <= i < |v.fields| ==> v.fields[i].0 != k) ==>
                 (k in filed.value.overrides <==> k in item.overrides) && (k in item.overrides ==> filed.value.overrides[k] == item.overrides[k]))
  {
    AfterOneMore(cfg, log, Act(id, v, now), id);
    if v.Redact? {
      forall k | forall i :: 0 <= i < |v.fields| ==> v.fields[i].0 != k
        ensures k in Merge(After(cfg, log, id).item.value.overrides, v.fields) <==> k in After(cfg, log, id).item.value.overrides
        ensures k in After(cfg, log, id).item.value.overrides ==>
          Merge(After(cfg, log, id).item.value.overrides, v.fields)[k] == After(cfg, log, id).item.value.overrides[k]
      {
        UnnamedStays(After(cfg, log, id).item.value.overrides, v.fields, k);
      }
    }
  }

  lemma {:induction false} UnnamedStays(overrides: Card, fields: seq<(string, Json)>, k: string)
    requires forall i :: 0 <= i < |fields| ==> fields[i].0 != k
    ensures k in Merge(overrides, fields) <==> k in overrides
    ensures k in overrides ==> Merge(overrides, fields)[k] == overrides[k]
  {
    if fields != [] {
      UnnamedStays(overrides, fields[..|fields| - 1], k);
    }
  }

  // ----- what is published -----

  /** A card is published exactly when it is valid now and its review lets it
      through: as it is when it was approved; when it was redacted, with the
      override's value in every overridden field and its own in every other. */
  lemma {:induction false} WhatIsPublished(cfg: Config, cards: map<string, Card>, reviews: map<string, Item>, id: string)
    ensures var published := Publication(cfg, cards, reviews);
      && (id in published <==>
            id in cards && id in reviews && HasValidResult(cards[id], cfg.primaryKey)
            && (reviews[id].status == Approved || reviews[id].status == Redacted))
      && (id in published && reviews[id].status == Approved ==> published[id] == cards[id])
      && (id in published && reviews[id].status == Redacted ==>
            && (forall k :: k in reviews[id].overrides ==> k in published[id] && published[id][k] == reviews[id].overrides[k])
            && (forall k :: k in cards[id] && k !in reviews[id].overrides ==> k in published[id] && published[id][k] == cards[id][k])
            && (forall k :: k in published[id] ==> k in cards[id] || k in reviews[id].overrides))
  {
  }

  /** The last value that a redaction gives a field is the one kept. */
  lemma {:induction false} LastValueCounts(overrides: Card, fields: seq<(string, Json)>, m: nat)
    requires m < |fields| && forall j :: m < j < |fields| ==> fields[j].0 != fields[m].0
    ensures fields[m].0 in Merge(overrides, fields) && Merge(overrides, fields)[fields[m].0] == fields[m].1
  {
    if m < |fields| - 1 {
      LastValueCounts(overrides, fields[..|fields| - 1], m);
    }
  }

  /** The event neither brings other content for this card nor decides on it. */
  predicate LeavesAlone(e: Event, id: string, card: Card) { KeepsContent(e, id, card) && (e.Act? ==> e.id != id) }

  lemma {:induction false} LeftAlone(cfg: Config, log: seq<Event>, between: seq<Event>, id: string, card: Card)
    requires After(cfg, log, id).item.Some? && After(cfg, log, id).item.value.sourceHash == cfg.fingerprint(card)
    requires forall i :: 0 <= i < |between| ==> LeavesAlone(between[i], id, card)
    ensures After(cfg, log + between, id).item == After(cfg, log, id).item
  {
    if between == [] {
      assert log + between == log;
    } else {
      var n := |between| - 1;
      LeftAlone(cfg, log, between[..n], id, card);
      assert log + between == (log + between[..n]) + [between[n]];
      AfterOneMore(cfg, log + between[..n], between[n], id);
    }
  }

  /** Once a reviewer has redacted a card on file, every later run publishes it,
      if it is valid, with the last value given for each field the redaction named,
      for as long as nobody decides on it again and its content stays the same. */
  lemma {:induction false} RedactionIsPublished(cfg: Config, log: seq<Event>, id: string, fields: seq<(string, Json)>, now: int,
                                                between: seq<Event>, cards: map<string, Card>, reviews: map<string, Item>, m: nat)
    requires id in cards && HasValidResult(cards[id], cfg.primaryKey)
    requires After(cfg, log, id).item.Some? && After(cfg, log, id).item.value.sourceHash == cfg.fingerprint(cards[id])
    requires forall j :: 0 <= j < |fields| ==> fields[j].0 in {"description", "keywords", "strategy", "task_description"}
    requires forall i :: 0 <= i < |between| ==> LeavesAlone(between[i], id, cards[id])
    requires id in reviews && After(cfg, log + [Act(id, Redact(fields), now)] + between, id).item == Some(reviews[id])
    requires m < |fields| && forall j :: m < j < |fields| ==> fields[j].0 != fields[m].0
    ensures var published := Publication(cfg, cards, reviews);
      id in published && fields[m].0 in published[id] && published[id][fields[m].0] == fields[m].1
  {
    var e := Act(id, Redact(fields), now);
    AfterOneMore(cfg, log, e, id);
    LeftAlone(cfg, log + [e], between, id, cards[id]);
    LastValueCounts(After(cfg, log, id).item.value.overrides, fields, m);
    WhatIsPublished(cfg, cards, reviews, id);
  }

  /** An approval is published unchanged under the same conditions. */
  lemma {:induction false} ApprovalIsPublished(cfg: Config, log: seq<Event>, id: string, now: int,
                                               between: seq<Event>, cards: map<string, Card>, reviews: map<string, Item>)
    requires id in cards && HasValidResult(cards[id], cfg.primaryKey)
    requires After(cfg, log, id).item.Some? && After(cfg, log, id).item.value.sourceHash == cfg.fingerprint(cards[id])
    requires forall i :: 0 <= i < |between| ==> LeavesAlone(between[i], id, cards[id])
    requires id in reviews && After(cfg, log + [Act(id, Approve, now)] + between, id).item == Some(reviews[id])
    ensures var published := Publication(cfg, cards, reviews); id in published && published[id] == cards[id]
  {
    AfterOneMore(cfg, log, Act(id, Approve, now), id);
    LeftAlone(cfg, log + [Act(id, Approve, now)], between, id, cards[id]);
    WhatIsPublished(cfg, cards, reviews, id);
  }

  /** And a rejection withdraws the card. */
  lemma {:induction false} RejectionWithholds(cfg: Config, log: seq<Event>, id: string, now: int,
                                              between: seq<Event>, cards: map<string, Card>, reviews: map<string, Item>)
    requires id in cards
    requires After(cfg, log, id).item.Some? && After(cfg, log, id).item.value.sourceHash == cfg.fingerprint(cards[id])
    requires forall i :: 0 <= i < |between| ==> LeavesAlone(between[i], id, cards[id])
    requires id in reviews && After(cfg, log + [Act(id, Reject, now)] + between, id).item == Some(reviews[id])
    ensures id !in Publication(cfg, cards, reviews)
  {
    AfterOneMore(cfg, log, Act(id, Reject, now), id);
    LeftAlone(cfg, log + [Act(id, Reject, now)], between, id, cards[id]);
    WhatIsPublished(cfg, cards, reviews, id);
  }
}
