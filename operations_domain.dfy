/** Naming of custom operators exported to OpenVINO: every custom operator
    lives in the `org.openvinotoolkit` domain, written `<domain>::<name>`. */
module OperationsDomain {
  import opened Wrappers
  import opened Strings

  const DomainCustomOpsName: string := "org.openvinotoolkit"

  /** The text every qualified operator name starts with. */
  const Qualifier: string := DomainCustomOpsName + "::"

  /** Qualifies an operator name with the custom-operator domain. */
  function AddDomain(nameOperator: string): (r: string)
    ensures StartsWith(r, "org.openvinotoolkit::")
    ensures EndsWith(r, nameOperator)
    ensures |r| == |DomainCustomOpsName| + 2 + |nameOperator|
  {
    DomainCustomOpsName + "::" + nameOperator
  }

  /** The inverse of `AddDomain`: the operator name of a qualified name, or
      `None` for a name outside the domain. */
  function StripDomain(qualified: string): (r: Option<string>)
    ensures r.Some? <==> StartsWith(qualified, Qualifier)
  {
    if StartsWith(qualified, Qualifier) then Some(qualified[|Qualifier|..]) else None
  }

  /** Stripping the domain recovers the operator name. */
  lemma StripAddDomain(nameOperator: string)
    ensures StripDomain(AddDomain(nameOperator)) == Some(nameOperator)
  {
    assert AddDomain(nameOperator) == Qualifier + nameOperator;
    assert (Qualifier + nameOperator)[|Qualifier|..] == nameOperator;
  }

  /** Every name in the domain is the qualification of its stripped form. */
  lemma AddStripDomain(qualified: string)
    requires StripDomain(qualified).Some?
    ensures AddDomain(StripDomain(qualified).value) == qualified
  {
    assert qualified == qualified[..|Qualifier|] + qualified[|Qualifier|..];
  }

  /** Distinct operator names give distinct qualified names. */
  lemma AddDomainInjective(a: string, b: string)
    requires AddDomain(a) == AddDomain(b)
    ensures a == b
  {
    StripAddDomain(a);
    StripAddDomain(b);
  }
}
