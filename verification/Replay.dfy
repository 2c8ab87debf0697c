/**
 Packets on their way into Floor 3: the input and replay contracts (f3_contracts.py), the ingress loop
 (f3_ingress.py) and the replay adapter's direct load (f3_replay_adapter.py). Times are seconds in UTC.
*/
module Replay {
  import opened SharedTypes
  import opened Sequences
  import opened Text

  const MAX_PACKET_AGE := 1800.0
  const MAX_FUTURE_DEVIATION := 5.0

  /** A payload entry that should hold a member of an enum `T`. */
  datatype Tag<T> = Missing | Member(value: T) | Named(text: string) | WrongType

  /** The payload's own `timestamp`, which need not be a datetime. */
  datatype Stamp = NoStamp | NullStamp | At(time: real) | NotADatetime

  datatype Data = DictData(entries: seq<(string, string)>) | OtherData(truthy: bool, text: string)
  {
    predicate Empty() {
      if DictData? then entries == [] else !truthy
    }
  }

  datatype Payload = Payload(
    freshness: Tag<FreshnessTag>,
    health: Tag<DataHealth>,
    liveOnly: bool,
    stamp: Stamp,
    data: Option<Data>,
    phase: Option<string>,
    symbol: Option<string>)

  datatype Packet = Packet(
    packetId: string,
    feedType: string,
    receivedAt: real,
    sourceTimestamp: Option<real>,
    payload: Payload)

  datatype ErrorField = FreshnessError | HealthError | FeedTypeError | LiveOnlyError | TimestampError

  datatype MarketPhase = PreOpen | OpenPhase | Lunch | Closing | PostClose

  datatype InputData = Entries(entries: seq<(string, string)>) | Wrapped(data: Data) | WholePayload(payload: Payload)

  datatype CalculationInput = CalculationInput(
    packetId: string,
    phase: MarketPhase,
    symbol: string,
    timestamp: real,
    data: InputData)

  // ----- The contracts -----

  predicate IsFreshnessName(s: string) {
    s == "FRESH" || s == "WARM" || s == "STALE"
  }

  predicate IsHealthName(s: string) {
    s == "GOOD" || s == "CAUTION" || s == "DEGRADED" || s == "STALE" || s == "CRITICAL"
  }

  predicate GoodFreshness(p: Packet) {
    p.payload.freshness.Member? || (p.payload.freshness.Named? && IsFreshnessName(p.payload.freshness.text))
  }

  predicate GoodHealth(p: Packet) {
    p.payload.health.Member? || (p.payload.health.Named? && IsHealthName(p.payload.health.text))
  }

  predicate GoodFeed(p: Packet) {
    !Mentions(Lower(p.feedType), "raw")
  }

  function ContractErrors(p: Packet): seq<ErrorField> {
    (if GoodFreshness(p) then [] else [FreshnessError])
    + (if GoodHealth(p) then [] else [HealthError])
    + (if GoodFeed(p) then [] else [FeedTypeError])
  }

  function ReplayErrors(p: Packet): seq<ErrorField> {
    ContractErrors(p) + (if p.payload.liveOnly then [LiveOnlyError] else [])
  }

  /** Meets the input contract: tagged with freshness and health, and not a raw feed. */
  predicate Admissible(p: Packet) {
    GoodFreshness(p) && GoodHealth(p) && GoodFeed(p)
  }

  predicate Replayable(p: Packet) {
    Admissible(p) && !p.payload.liveOnly
  }

  method ValidatePacket(p: Packet) returns (errors: seq<ErrorField>)
    ensures errors == ContractErrors(p)
    ensures errors == [] <==> Admissible(p)
  {
    errors := [];
    match p.payload.freshness {
      case Missing => errors := errors + [FreshnessError];
      case Member(_) =>
      case Named(text) =>
        if !IsFreshnessName(text) {
          errors := errors + [FreshnessError];
        }
      case WrongType => errors := errors + [FreshnessError];
    }
    match p.payload.health {
      case Missing => errors := errors + [HealthError];
      case Member(_) =>
      case Named(text) =>
        if !IsHealthName(text) {
          errors := errors + [HealthError];
        }
      case WrongType => errors := errors + [HealthError];
    }
    if p.feedType != "" && Mentions(Lower(p.feedType), "raw") {
      errors := errors + [FeedTypeError];
    }
  }

  method ValidateReplayPacket(p: Packet) returns (errors: seq<ErrorField>)
    ensures errors == ReplayErrors(p)
    ensures errors == [] <==> Replayable(p)
  {
    errors := ValidatePacket(p);
    if p.payload.liveOnly {
      errors := errors + [LiveOnlyError];
    }
  }

  // ----- Timestamps -----

  function PacketTime(p: Packet): real {
    if p.sourceTimestamp.Some? then p.sourceTimestamp.value else p.receivedAt
  }

  predicate InWindow(time: real, now: real) {
    -MAX_FUTURE_DEVIATION <= now - time <= MAX_PACKET_AGE
  }

  /** The payload's own stamp hides the packet's times; a stamp that is no datetime is never compared. */
  predicate Timely(p: Packet, now: real) {
    match p.payload.stamp
    case NoStamp => InWindow(PacketTime(p), now)
    case NullStamp => false
    case At(time) => InWindow(time, now)
    case NotADatetime => true
  }

  method ValidateTimestamp(p: Packet, replayMode: bool, now: real) returns (errors: seq<ErrorField>)
    ensures errors == [] <==> replayMode || Timely(p, now)
  {
    errors := [];
    if replayMode {
      return;
    }
    if p.payload.stamp.NullStamp? {
      return [TimestampError];
    }
    if p.payload.stamp.NotADatetime? {
      return;
    }
    var time := if p.payload.stamp.At? then p.payload.stamp.time else PacketTime(p);
    var age := now - time;
    if age > MAX_PACKET_AGE {
      errors := errors + [TimestampError];
    }
    if age < -MAX_FUTURE_DEVIATION {
      errors := errors + [TimestampError];
    }
  }

  // ----- Conversion -----

  function PhaseOf(phase: Option<string>): MarketPhase {
    match phase
    case None => OpenPhase
    case Some(s) =>
      if s == "PRE_OPEN" then PreOpen
      else if s == "LUNCH" then Lunch
      else if s == "CLOSING" then Closing
      else if s == "POST_CLOSE" then PostClose
      else OpenPhase
  }

  /** Without a `data` entry the payload itself is the data; an empty `data` entry is skipped silently. */
  predicate HasData(p: Packet) {
    p.payload.data.Some? ==> !p.payload.data.value.Empty()
  }

  function Converted(p: Packet): Option<CalculationInput> {
    if !HasData(p) then None
    else
      Some(CalculationInput(
        p.packetId,
        PhaseOf(p.payload.phase),
        if p.payload.symbol.Some? then p.payload.symbol.value else "NIFTY",
        PacketTime(p),
        match p.payload.data
        case None => WholePayload(p.payload)
        case Some(DictData(entries)) => Entries(entries)
        case Some(other) => Wrapped(other)))
  }

  // ----- Ingress -----

  datatype IngressResult = IngressResult(accepted: seq<CalculationInput>, rejected: nat, replayMode: bool)

  predicate Passes(p: Packet, replayMode: bool, now: real) {
    Admissible(p) && (replayMode || Timely(p, now))
  }

  function Taken(result: IngressResult, p: Packet, now: real): IngressResult {
    if !Passes(p, result.replayMode, now) then result.(rejected := result.rejected + 1)
    else match Converted(p)
      case None => result
      case Some(input) => result.(accepted := result.accepted + [input])
  }

  function Ingress(packets: seq<Packet>, replayMode: bool, now: real): IngressResult {
    if packets == [] then IngressResult([], 0, replayMode)
    else Taken(Ingress(packets[..|packets| - 1], replayMode, now), packets[|packets| - 1], now)
  }

  method ConsumeFloor2Output(packets: seq<Packet>, replayMode: bool, now: real) returns (result: IngressResult)
    ensures result == Ingress(packets, replayMode, now)
  {
    result := IngressResult([], 0, replayMode);
    if packets == [] {
      return;
    }
    hide Admissible, Timely, Converted;
    for i := 0 to |packets|
      invariant result == Ingress(packets[..i], replayMode, now) && result.replayMode == replayMode
    {
      assert packets[..i + 1][..i] == packets[..i];
      var contractErrors := ValidatePacket(packets[i]);
      var stampErrors := ValidateTimestamp(packets[i], replayMode, now);
      if contractErrors != [] || stampErrors != [] {
        result := result.(rejected := result.rejected + 1);
        continue;
      }
      var input := Converted(packets[i]);
      if input != None {
        result := result.(accepted := result.accepted + [input.value]);
      }
    }
    assert packets[..|packets|] == packets;
  }

  // ----- Direct load -----

  datatype LoadResult = LoadResult(packets: seq<Packet>, errors: seq<ErrorField>)
  {
    /** `rejected_count` counts errors, not packets. */
    function RejectedCount(): nat { |errors| }

    predicate Success() {
      RejectedCount() == 0 && packets != []
    }
  }

  function Kept(packets: seq<Packet>): seq<Packet> {
    if packets == [] then []
    else
      var last := packets[|packets| - 1];
      Kept(packets[..|packets| - 1]) + (if Replayable(last) then [last] else [])
  }

  function LoadErrors(packets: seq<Packet>): seq<ErrorField> {
    if packets == [] then []
    else LoadErrors(packets[..|packets| - 1]) + ReplayErrors(packets[|packets| - 1])
  }

  method LoadDirect(packets: seq<Packet>) returns (r: LoadResult)
    ensures r == LoadResult(Kept(packets), LoadErrors(packets))
  {
    var valid: seq<Packet> := [];
    var allErrors: seq<ErrorField> := [];
    hide Replayable, ReplayErrors;
    for i := 0 to |packets|
      invariant valid == Kept(packets[..i])
      invariant allErrors == LoadErrors(packets[..i])
    {
      assert packets[..i + 1][..i] == packets[..i];
      var errors := ValidateReplayPacket(packets[i]);
      if errors != [] {
        allErrors := allErrors + errors;
      } else {
        valid := valid + [packets[i]];
      }
    }
    assert packets[..|packets|] == packets;
    r := LoadResult(valid, allErrors);
  }

  // ----- Nothing is lost at ingress -----

  /** The positions whose packets become inputs. */
  function AcceptedAt(packets: seq<Packet>, replayMode: bool, now: real): (p: seq<nat>)
    ensures forall k :: 0 <= k < |p| ==> p[k] < |packets|
  {
    if packets == [] then []
    else
      var n := |packets| - 1;
      AcceptedAt(packets[..n], replayMode, now) +
      (if Passes(packets[n], replayMode, now) && HasData(packets[n]) then [n] else [])
  }

  function EmptyCount(packets: seq<Packet>, replayMode: bool, now: real): nat {
    if packets == [] then 0
    else
      var n := |packets| - 1;
      EmptyCount(packets[..n], replayMode, now) +
      (if Passes(packets[n], replayMode, now) && !HasData(packets[n]) then 1 else 0)
  }

  /** Every packet is accepted, rejected or silently skipped for its empty data, and exactly one of the three. */
  lemma {:induction false} IngressConserves(packets: seq<Packet>, replayMode: bool, now: real)
    ensures var r := Ingress(packets, replayMode, now);
            |r.accepted| + r.rejected + EmptyCount(packets, replayMode, now) == |packets|
    ensures Ingress(packets, replayMode, now).replayMode == replayMode
  {
    hide Passes, HasData;
    if packets != [] {
      IngressConserves(packets[..|packets| - 1], replayMode, now);
      ConvertedIffData(packets[|packets| - 1]);
    }
  }

  lemma ConvertedIffData(p: Packet)
    ensures Converted(p).Some? <==> HasData(p)
    ensures HasData(p) ==> Converted(p).value.packetId == p.packetId && Converted(p).value.timestamp == PacketTime(p)
  {
  }

  /** Half an hour of age and five seconds of future, by the stamp if there is one, else by source time or arrival. */
  lemma PassesByNumbers(p: Packet, now: real)
    ensures Passes(p, true, now) <==> Admissible(p)
    ensures var stamp := p.payload.stamp;
            var time := if stamp.At? then stamp.time else Or(p.sourceTimestamp, p.receivedAt);
            Passes(p, false, now) <==>
            Admissible(p) && !stamp.NullStamp? && (stamp.NotADatetime? || now - 1800.0 <= time <= now + 5.0)
  {
    hide Admissible;
  }

  /** The input contract in the packet's own words. */
  lemma AdmissibleIff(p: Packet)
    ensures var freshness, health := p.payload.freshness, p.payload.health;
            Admissible(p) <==>
            && (freshness.Member? || freshness in {Named("FRESH"), Named("WARM"), Named("STALE")})
            && (|| health.Member?
                || health in {Named("GOOD"), Named("CAUTION"), Named("DEGRADED"), Named("STALE"), Named("CRITICAL")})
            && !exists a, b :: Lower(p.feedType) == a + "raw" + b
  {
    MentionsIff(Lower(p.feedType), "raw");
    hide Mentions, Lower;
  }

  /** What an accepted packet becomes; an unknown phase counts as OPEN. */
  lemma ConvertedFields(p: Packet)
    requires HasData(p)
    ensures var input, phase := Converted(p).value, p.payload.phase;
            && (input.phase == PreOpen <==> phase == Some("PRE_OPEN"))
            && (input.phase == Lunch <==> phase == Some("LUNCH"))
            && (input.phase == Closing <==> phase == Some("CLOSING"))
            && (input.phase == PostClose <==> phase == Some("POST_CLOSE"))
            && input.symbol == Or(p.payload.symbol, "NIFTY")
            && (p.payload.data == None ==> input.data == WholePayload(p.payload))
            && (forall entries :: p.payload.data == Some(DictData(entries)) ==> input.data == Entries(entries))
            && (forall b, text :: p.payload.data == Some(OtherData(b, text)) ==>
                  b && input.data == Wrapped(OtherData(b, text)))
  {
    assert |"PRE_OPEN"| == 8 && |"LUNCH"| == 5 && |"CLOSING"| == 7 && |"POST_CLOSE"| == 10;
  }

  lemma HasDataIff(p: Packet)
    ensures HasData(p) <==>
            p.payload.data != Some(DictData([])) && forall text :: p.payload.data != Some(OtherData(false, text))
  {
  }

  lemma {:induction false} AcceptedAtIsExact(packets: seq<Packet>, replayMode: bool, now: real)
    ensures var at := AcceptedAt(packets, replayMode, now);
            && Increasing(at)
            && forall k :: k in at <==> 0 <= k < |packets| && Passes(packets[k], replayMode, now) && HasData(packets[k])
  {
    hide Passes, HasData;
    if packets != [] {
      var n := |packets| - 1;
      AcceptedAtIsExact(packets[..n], replayMode, now);
      assert forall k :: 0 <= k < n ==> packets[..n][k] == packets[k];
    }
  }

  ghost predicate ImageAt(accepted: seq<CalculationInput>, packets: seq<Packet>, at: seq<nat>) {
    && |accepted| == |at|
    && forall i :: 0 <= i < |at| ==> at[i] < |packets| && Converted(packets[at[i]]) == Some(accepted[i])
  }

  lemma {:induction false} AcceptedIsImage(packets: seq<Packet>, replayMode: bool, now: real)
    ensures ImageAt(Ingress(packets, replayMode, now).accepted, packets, AcceptedAt(packets, replayMode, now))
  {
    hide Passes, HasData, Converted;
    if packets != [] {
      var n := |packets| - 1;
      AcceptedIsImage(packets[..n], replayMode, now);
      IngressConserves(packets[..n], replayMode, now);
      ConvertedIffData(packets[n]);
    }
  }

  /** The accepted inputs are the conversions of the passing packets with data, in packet order. */
  lemma AcceptedIsOrderedImage(packets: seq<Packet>, replayMode: bool, now: real)
    ensures ImageAt(Ingress(packets, replayMode, now).accepted, packets, AcceptedAt(packets, replayMode, now))
    ensures Increasing(AcceptedAt(packets, replayMode, now))
    ensures forall k :: k in AcceptedAt(packets, replayMode, now) <==>
              0 <= k < |packets| && Passes(packets[k], replayMode, now) && HasData(packets[k])
  {
    AcceptedAtIsExact(packets, replayMode, now);
    AcceptedIsImage(packets, replayMode, now);
    hide Passes, HasData, Increasing, ImageAt;
  }

  // ----- Load, then ingress -----

  lemma {:induction false} KeptIsReplayable(packets: seq<Packet>)
    ensures forall p :: p in Kept(packets) ==> Replayable(p) && p in packets
  {
    if packets != [] {
      var n := |packets| - 1;
      KeptIsReplayable(packets[..n]);
      assert packets == packets[..n] + [packets[n]];
    }
  }

  lemma {:induction false} NoneRejected(packets: seq<Packet>, now: real)
    requires forall p :: p in packets ==> Admissible(p)
    ensures Ingress(packets, true, now).rejected == 0
  {
    hide Admissible, Converted;
    if packets != [] {
      var n := |packets| - 1;
      IngressConserves(packets[..n], true, now);
      NoneRejected(packets[..n], now);
      assert packets[n] in packets;
    }
  }

  /** Whatever direct load keeps, replay-mode ingress rejects none of it, however old it is. */
  lemma ReplayPassesIngress(packets: seq<Packet>, now: real)
    ensures Ingress(Kept(packets), true, now).rejected == 0
    ensures |Ingress(Kept(packets), true, now).accepted| + EmptyCount(Kept(packets), true, now) == |Kept(packets)|
  {
    KeptIsReplayable(packets);
    NoneRejected(Kept(packets), now);
    IngressConserves(Kept(packets), true, now);
  }

  /** What a live cycle and its replay would both turn into inputs. */
  ghost predicate ReplaysLikeLive(p: Packet, now: real) {
    Admissible(p) && HasData(p) ==> (Timely(p, now) <==> !p.payload.liveOnly)
  }

  /**
   Replaying a batch reproduces the very inputs the live cycle saw at `now`, at any later time, if the packets that
   were too old or too new then are the ones flagged live-only.
  */
  lemma {:induction false} ReplayReproducesLive(packets: seq<Packet>, now: real, later: real)
    requires forall p :: p in packets ==> ReplaysLikeLive(p, now)
    ensures Ingress(Kept(packets), true, later).accepted == Ingress(packets, false, now).accepted
  {
    hide Admissible, Timely, HasData, Converted;
    if packets != [] {
      var n := |packets| - 1;
      var last := packets[n];
      ReplayReproducesLive(packets[..n], now, later);
      assert last in packets;
      ConvertedIffData(last);
      IngressConserves(packets[..n], false, now);
      if Replayable(last) {
        assert Kept(packets)[..|Kept(packets)| - 1] == Kept(packets[..n]);
        IngressConserves(Kept(packets[..n]), true, later);
      } else {
        assert Kept(packets) == Kept(packets[..n]);
      }
    }
  }

  ghost predicate IdAccepted(inputs: seq<CalculationInput>, id: string) {
    exists i :: 0 <= i < |inputs| && inputs[i].packetId == id
  }

  ghost predicate IdPasses(packets: seq<Packet>, replayMode: bool, now: real, id: string) {
    exists p :: p in packets && p.packetId == id && Passes(p, replayMode, now) && HasData(p)
  }

  lemma IdOneMore(inputs: seq<CalculationInput>, input: CalculationInput, id: string)
    ensures IdAccepted(inputs + [input], id) <==> IdAccepted(inputs, id) || input.packetId == id
  {
    assert (inputs + [input])[|inputs|] == input;
    if IdAccepted(inputs, id) {
      var i :| 0 <= i < |inputs| && inputs[i].packetId == id;
      assert (inputs + [input])[i].packetId == id;
    }
  }

  lemma {:induction false} AcceptedIds(packets: seq<Packet>, replayMode: bool, now: real, id: string)
    ensures IdAccepted(Ingress(packets, replayMode, now).accepted, id) <==> IdPasses(packets, replayMode, now, id)
  {
    hide Passes, HasData, Converted, IdAccepted;
    if packets == [] {
      NoIdAccepted(id);
    } else {
      var n := |packets| - 1;
      var init, last := packets[..n], packets[n];
      assert packets == init + [last];
      AcceptedIds(init, replayMode, now, id);
      IngressConserves(init, replayMode, now);
      ConvertedIffData(last);
      if Converted(last).Some? {
        IdOneMore(Ingress(init, replayMode, now).accepted, Converted(last).value, id);
      }
      assert IdPasses(packets, replayMode, now, id) <==>
             IdPasses(init, replayMode, now, id)
             || (last.packetId == id && Passes(last, replayMode, now) && HasData(last));
    }
  }

  lemma NoIdAccepted(id: string)
    ensures !IdAccepted([], id)
  {
  }

  ghost predicate DistinctIds(packets: seq<Packet>) {
    forall p, q :: p in packets && q in packets && p.packetId == q.packetId ==> p == q
  }

  lemma ReplayableIsKept(packets: seq<Packet>, p: Packet)
    ensures p in Kept(packets) <==> p in packets && Replayable(p)
  {
    hide Replayable;
    if packets != [] {
      var n := |packets| - 1;
      ReplayableIsKept(packets[..n], p);
      assert packets == packets[..n] + [packets[n]];
    }
  }

  lemma OnlyLikeLivePackets(packets: seq<Packet>, now: real, later: real, p: Packet)
    requires DistinctIds(packets) && p in packets
    requires Ingress(Kept(packets), true, later).accepted == Ingress(packets, false, now).accepted
    ensures ReplaysLikeLive(p, now)
  {
    hide Admissible, Timely, HasData, IdAccepted, Ingress;
    AcceptedIds(Kept(packets), true, later, p.packetId);
    AcceptedIds(packets, false, now, p.packetId);
    ReplayableIsKept(packets, p);
    if Admissible(p) && HasData(p) {
      if Timely(p, now) {
        assert IdPasses(packets, false, now, p.packetId);
        var q :| q in Kept(packets) && q.packetId == p.packetId && Passes(q, true, later) && HasData(q);
        ReplayableIsKept(packets, q);
        assert q == p;
      } else {
        assert IdPasses(Kept(packets), true, later, p.packetId) <==> IdPasses(packets, false, now, p.packetId);
      }
    }
  }

  /**
   With packet identifiers that never repeat, the replay reproduces the live inputs if and only if every packet does.
  */
  lemma ReplayReproducesLiveIff(packets: seq<Packet>, now: real, later: real)
    requires DistinctIds(packets)
    ensures Ingress(Kept(packets), true, later).accepted == Ingress(packets, false, now).accepted
            <==> forall p :: p in packets ==> ReplaysLikeLive(p, now)
  {
    hide ReplaysLikeLive, Ingress, Kept;
    if forall p :: p in packets ==> ReplaysLikeLive(p, now) {
      ReplayReproducesLive(packets, now, later);
    }
    if Ingress(Kept(packets), true, later).accepted == Ingress(packets, false, now).accepted {
      forall p | p in packets ensures ReplaysLikeLive(p, now) {
        OnlyLikeLivePackets(packets, now, later, p);
      }
    }
  }

  // ----- The load's own counts -----

  ghost predicate OneErrorEach(packets: seq<Packet>) {
    forall p :: p in packets ==> |ReplayErrors(p)| <= 1
  }

  lemma ErrorsPerPacket(p: Packet)
    ensures Replayable(p) <==> |ReplayErrors(p)| == 0
  {
  }

  lemma OnePacket(p: Packet)
    ensures Kept([p]) == if Replayable(p) then [p] else []
    ensures LoadErrors([p]) == ReplayErrors(p)
  {
    hide ReplayErrors, Replayable;
    assert [p][..0] == [];
  }

  /** One packet without freshness and health counts as two rejected packets. */
  lemma TwoErrorsCountTwice()
    ensures exists p: Packet :: |Kept([p])| == 0 && |LoadErrors([p])| == 2
  {
    var p := Packet("id", "", 0.0, None, Payload(Missing, Missing, false, NoStamp, None, None, None));
    assert !GoodFreshness(p) && !GoodHealth(p) && GoodFeed(p);
    assert ReplayErrors(p) == [FreshnessError, HealthError] && !Replayable(p);
    hide ReplayErrors, Replayable;
    OnePacket(p);
  }

  /** The two counts of a load add up to its packets exactly if no packet failed on two grounds. */
  lemma {:induction false} LoadCountsAddUpIff(packets: seq<Packet>)
    ensures |Kept(packets)| + |LoadErrors(packets)| >= |packets|
    ensures |Kept(packets)| + |LoadErrors(packets)| == |packets| <==> OneErrorEach(packets)
  {
    hide ReplayErrors, Replayable;
    if packets != [] {
      var n := |packets| - 1;
      LoadCountsAddUpIff(packets[..n]);
      ErrorsPerPacket(packets[n]);
      assert packets == packets[..n] + [packets[n]];
      assert packets[n] in packets;
      assert OneErrorEach(packets) <==> OneErrorEach(packets[..n]) && |ReplayErrors(packets[n])| <= 1;
    }
  }

  lemma {:induction false} AllKept(packets: seq<Packet>)
    requires forall p :: p in packets ==> Replayable(p)
    ensures Kept(packets) == packets && LoadErrors(packets) == []
  {
    hide ReplayErrors, Replayable;
    if packets != [] {
      var n := |packets| - 1;
      AllKept(packets[..n]);
      ErrorsPerPacket(packets[n]);
      assert packets[n] in packets;
    }
  }

  lemma {:induction false} NoErrors(packets: seq<Packet>)
    requires LoadErrors(packets) == []
    ensures forall p :: p in packets ==> Replayable(p)
  {
    hide ReplayErrors, Replayable;
    if packets != [] {
      var n := |packets| - 1;
      NoErrors(packets[..n]);
      ErrorsPerPacket(packets[n]);
      assert packets == packets[..n] + [packets[n]];
    }
  }

  /** A load succeeds exactly if it was given packets and every one of them is replayable; it then keeps them all. */
  lemma LoadSucceedsIff(packets: seq<Packet>)
    ensures LoadResult(Kept(packets), LoadErrors(packets)).Success() <==>
            packets != [] && forall p :: p in packets ==> Replayable(p)
    ensures (forall p :: p in packets ==> Replayable(p)) ==> Kept(packets) == packets
  {
    hide ReplayErrors, Replayable;
    if LoadErrors(packets) == [] {
      NoErrors(packets);
    }
    if forall p :: p in packets ==> Replayable(p) {
      AllKept(packets);
    }
  }

  // ----- The timestamp that is checked and the one that is used -----

  /** A live packet without a stamp of its own enters Floor 3 with a timestamp inside the window. */
  lemma UnstampedInputIsTimely(p: Packet, now: real)
    requires Passes(p, false, now) && HasData(p) && p.payload.stamp == NoStamp
    ensures InWindow(Converted(p).value.timestamp, now)
  {
  }

  /** Some packet with this stamp, and data, of any age. */
  function PacketStamped(s: Stamp, source: real): Packet {
    Packet("id", "", 0.0, Some(source),
           Payload(Member(FreshTag), Member(DataHealth.GoodHealth), false, s, None, None, None))
  }

  lemma PacketStampedPasses(s: Stamp, source: real, now: real)
    ensures var p := PacketStamped(s, source);
            && HasData(p) && Converted(p).value.timestamp == source
            && (Passes(p, false, now) <==> Timely(p, now))
  {
    assert Lower(PacketStamped(s, source).feedType) == "";
  }

  /**
   Which payload stamps keep an old input out of live ingress: the stamp is checked but not used, so only without one,
   with a null one, or with one outside the window itself is every accepted input inside the window. A current stamp,
   and any stamp that is no datetime, lets inputs of any age in.
  */
  lemma StampKeepsInputsTimelyIff(s: Stamp, now: real)
    ensures (forall p: Packet :: p.payload.stamp == s && Passes(p, false, now) && HasData(p) ==>
               InWindow(Converted(p).value.timestamp, now))
            <==> s.NoStamp? || s.NullStamp? || (s.At? && !InWindow(s.time, now))
  {
    hide Admissible;
    if s.NoStamp? || s.NullStamp? || (s.At? && !InWindow(s.time, now)) {
      forall p: Packet | p.payload.stamp == s && Passes(p, false, now) && HasData(p)
        ensures InWindow(Converted(p).value.timestamp, now)
      {
        if s.NoStamp? {
          UnstampedInputIsTimely(p, now);
        }
      }
    } else {
      var stale := PacketStamped(s, now - 86400.0);
      PacketStampedPasses(s, now - 86400.0, now);
      assert stale.payload.stamp == s && Passes(stale, false, now) && HasData(stale);
      assert !InWindow(Converted(stale).value.timestamp, now);
    }
  }
}
