/** Exposure views derived from snapshots: a snapshot's integration state is believed only when it
    carries primary evidence. */
module GatewayViews {
  import opened Values

  datatype GatewaySnapshot = GatewaySnapshot(
    target: string,
    state: IntegrationState,
    primary: Option<EvidencePrimary>,
    secondary: seq<EvidenceSecondary>)

  datatype GatewayExposure = GatewayExposure(snapshots: seq<GatewaySnapshot>)

  datatype GatewayView = GatewayView(
    target: string,
    state: IntegrationState,
    primary: Option<EvidencePrimary>,
    secondary: seq<EvidenceSecondary>)

  /** The view of one snapshot: its state when primary evidence is present, UNKNOWN otherwise;
      target and evidence are carried over. */
  function DeriveGatewayView(snapshot: GatewaySnapshot): (view: GatewayView)
    ensures snapshot.primary.None? ==> view.state == INTEGRATION_UNKNOWN
    ensures snapshot.primary.Some? ==> view.state == snapshot.state
    ensures view.target == snapshot.target && view.primary == snapshot.primary && view.secondary == snapshot.secondary
  {
    var state := if snapshot.primary.Some? then snapshot.state else INTEGRATION_UNKNOWN;
    GatewayView(snapshot.target, state, snapshot.primary, snapshot.secondary)
  }

  /** One view per snapshot, in the same order. */
  function DeriveGatewayViews(exposure: GatewayExposure): (views: seq<GatewayView>)
    ensures |views| == |exposure.snapshots|
    ensures forall i :: 0 <= i < |views| ==> views[i] == DeriveGatewayView(exposure.snapshots[i])
  {
    seq(|exposure.snapshots|, i requires 0 <= i < |exposure.snapshots| => DeriveGatewayView(exposure.snapshots[i]))
  }

  /** The snapshot a view describes. */
  function SnapshotOf(view: GatewayView): GatewaySnapshot {
    GatewaySnapshot(view.target, view.state, view.primary, view.secondary)
  }

  /** Deriving is idempotent: a view read back as a snapshot derives to itself. */
  lemma DeriveIdempotent(snapshot: GatewaySnapshot)
    ensures DeriveGatewayView(SnapshotOf(DeriveGatewayView(snapshot))) == DeriveGatewayView(snapshot)
  {
  }

  /** Views of a whole exposure are idempotent too, element by element. */
  lemma {:induction false} DeriveViewsIdempotent(exposure: GatewayExposure)
    ensures var views := DeriveGatewayViews(exposure);
      DeriveGatewayViews(GatewayExposure(seq(|views|, i requires 0 <= i < |views| => SnapshotOf(views[i])))) == views
  {
    var views := DeriveGatewayViews(exposure);
    var again := DeriveGatewayViews(GatewayExposure(seq(|views|, i requires 0 <= i < |views| => SnapshotOf(views[i]))));
    forall i | 0 <= i < |views|
      ensures again[i] == views[i]
    {
      DeriveIdempotent(exposure.snapshots[i]);
    }
  }
}
