/** The static allow-tables of state transitions, one per state domain. A pair is legal exactly when
    it is a key of its table (deny by omission); the value is the table's justification text. */
module Transitions {
  import opened Values

  const AllowedEngineTransitions: map<(EngineState, EngineState), string> := map[
    (UNKNOWN, UP) := "preuve primaire obtenue",
    (UNKNOWN, DEGRADED) := "preuve primaire obtenue",
    (UP, DEGRADED) := "variation d'observabilité",
    (DEGRADED, UP) := "variation d'observabilité",
    (UP, FAILED) := "divergence critique prouvée",
    (DEGRADED, FAILED) := "divergence critique prouvée"
  ]

  const AllowedAppTransitions: map<(AppState, AppState), string> := map[
    (APP_UNKNOWN, APP_DOWN) := "preuve primaire obtenue",
    (APP_UNKNOWN, APP_UP) := "preuve primaire obtenue",
    (APP_DOWN, APP_UP) := "exécution observée",
    (APP_UP, APP_DOWN) := "arrêt observé",
    (APP_UP, APP_FAILED) := "divergence critique",
    (APP_DOWN, APP_FAILED) := "divergence critique"
  ]

  const AllowedDeployTransitions: map<(DeployState, DeployState), string> := map[
    (DEPLOY_UNKNOWN, DEPLOY_APPLIED) := "preuve issue de l'exécution",
    (DEPLOY_UNKNOWN, DEPLOY_REJECTED) := "refus par gouvernance",
    (DEPLOY_UNKNOWN, DEPLOY_FAILED) := "exécution invalide"
  ]

  const AllowedIntegrationTransitions: map<(IntegrationState, IntegrationState), string> := map[
    (INTEGRATION_UNKNOWN, AVAILABLE) := "preuve primaire obtenue",
    (INTEGRATION_UNKNOWN, UNAVAILABLE) := "preuve primaire obtenue",
    (INTEGRATION_UNKNOWN, UNSTABLE) := "preuve primaire obtenue",
    (AVAILABLE, UNSTABLE) := "variation observée",
    (UNSTABLE, AVAILABLE) := "variation observée",
    (UNSTABLE, UNAVAILABLE) := "dégradation observée"
  ]

  /** The engine table holds exactly six pairs; every other engine pair is illegal. */
  lemma EngineTableExactly()
    ensures AllowedEngineTransitions.Keys ==
      {(UNKNOWN, UP), (UNKNOWN, DEGRADED), (UP, DEGRADED), (DEGRADED, UP), (UP, FAILED), (DEGRADED, FAILED)}
    ensures |AllowedEngineTransitions| == 6
  {
    var keys := AllowedEngineTransitions.Keys;
    assert keys == {(UNKNOWN, UP), (UNKNOWN, DEGRADED), (UP, DEGRADED), (DEGRADED, UP), (UP, FAILED), (DEGRADED, FAILED)};
  }

  /** A failure reached from a live engine state is a legal transition. */
  lemma EngineFailureAllowed()
    ensures (UP, FAILED) in AllowedEngineTransitions
    ensures (DEGRADED, FAILED) in AllowedEngineTransitions
  {
  }

  /** No table allows a state to transition to itself. */
  lemma NoSelfTransitions()
    ensures forall s: EngineState :: (s, s) !in AllowedEngineTransitions
    ensures forall s: AppState :: (s, s) !in AllowedAppTransitions
    ensures forall s: DeployState :: (s, s) !in AllowedDeployTransitions
    ensures forall s: IntegrationState :: (s, s) !in AllowedIntegrationTransitions
  {
  }

  /** No table allows a transition into the unknown state. */
  lemma NeverIntoUnknown()
    ensures forall s: EngineState :: (s, UNKNOWN) !in AllowedEngineTransitions
    ensures forall s: AppState :: (s, APP_UNKNOWN) !in AllowedAppTransitions
    ensures forall s: DeployState :: (s, DEPLOY_UNKNOWN) !in AllowedDeployTransitions
    ensures forall s: IntegrationState :: (s, INTEGRATION_UNKNOWN) !in AllowedIntegrationTransitions
  {
  }

  /** FAILED is terminal for the engine and for applications. */
  lemma FailedIsTerminal()
    ensures forall t: EngineState :: (FAILED, t) !in AllowedEngineTransitions
    ensures forall t: AppState :: (APP_FAILED, t) !in AllowedAppTransitions
  {
  }

  /** Every deploy transition starts at UNKNOWN, so the three outcomes are terminal. */
  lemma DeployOutcomesAreTerminal()
    ensures forall p :: p in AllowedDeployTransitions ==> p.0 == DEPLOY_UNKNOWN
    ensures forall t: DeployState ::
      (DEPLOY_APPLIED, t) !in AllowedDeployTransitions &&
      (DEPLOY_REJECTED, t) !in AllowedDeployTransitions &&
      (DEPLOY_FAILED, t) !in AllowedDeployTransitions
  {
  }

  /** An unavailable integration has no outgoing transition. */
  lemma UnavailableIsTerminal()
    ensures forall t: IntegrationState :: (UNAVAILABLE, t) !in AllowedIntegrationTransitions
  {
  }
}
