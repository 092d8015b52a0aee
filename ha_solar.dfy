/** ha/config/custom_components/demkit/demkit/solar.py: the hub
    integration's solar production reading and its on/off switch, both for
    house 0, panel 0. */
module HaSolar {
  import opened Demkit

  const SolarPath: string := "/houses/0/solar/0"

  /** `get_production`: `min(-consumption, 0)`. */
  function Production(consumption: real): (p: real)
    ensures p <= 0.0
    ensures consumption >= 0.0 ==> p == -consumption
    ensures consumption <= 0.0 ==> p == 0.0
  {
    if -consumption <= 0.0 then -consumption else 0.0
  }

  /** The same figure by another route: the negated positive part. */
  lemma ProductionIsNegatedPositivePart(consumption: real)
    ensures Production(consumption) == -Max(consumption, 0.0)
  {
  }

  /** The path each function addresses: reads and toggles go to one panel. */
  function InfoPath(): string { SolarPath }

  function TogglePath(on: bool): (r: (string, bool))
    ensures r.0 == InfoPath() && r.1 == on
  {
    (SolarPath, on)
  }
}
