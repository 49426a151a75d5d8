/** How strongly a fact is vouched for. */
module Assurances {

  datatype Assurance = AgentAsserted | RuntimeObserved | ProviderVerified | UserConfirmed

  function AssuranceRank(a: Assurance): nat {
    match a
    case AgentAsserted => 0
    case RuntimeObserved => 1
    case ProviderVerified => 2
    case UserConfirmed => 3
  }

  function MaxAssurance(a: Assurance, b: Assurance): (r: Assurance)
    ensures r == a || r == b
    ensures AssuranceRank(a) <= AssuranceRank(r) && AssuranceRank(b) <= AssuranceRank(r)
  {
    if AssuranceRank(a) >= AssuranceRank(b) then a else b
  }
}
