/** The action's three inputs and the normalisation `run` applies before anything
    else (index.js:72-74): the domain name and the load-balancer DNS name are
    lower-cased, the hosted zone id is used verbatim. */
module Inputs {

  datatype ActionInputs = ActionInputs(
    hostedZoneId: string,
    domainName: string,
    loadBalancerDns: string)

  predicate IsUpper(c: char) {
    'A' <= c <= 'Z'
  }

  /** `toLowerCase` on one character, for the ASCII letters. */
  function LowerChar(c: char): char {
    if IsUpper(c) then (c as int - 'A' as int + 'a' as int) as char else c
  }

  /** `a` and `b` are the same letter up to ASCII case, or the same character. */
  predicate SameIgnoringCase(a: char, b: char) {
    || a == b
    || (IsUpper(a) && b as int == a as int + 32)
    || (IsUpper(b) && a as int == b as int + 32)
  }

  /** Two strings that differ at most in the case of their ASCII letters. */
  predicate EqualIgnoringCase(s: string, t: string) {
    |s| == |t| && forall i :: 0 <= i < |s| ==> SameIgnoringCase(s[i], t[i])
  }

  predicate NoUpper(s: string) {
    forall i :: 0 <= i < |s| ==> !IsUpper(s[i])
  }

  /** `String.prototype.toLowerCase`, restricted to ASCII letters. */
  function ToLower(s: string): (t: string)
    ensures NoUpper(t)
    ensures EqualIgnoringCase(s, t)
  {
    seq(|s|, i requires 0 <= i < |s| => LowerChar(s[i]))
  }

  /** Lower-casing identifies exactly the strings that differ only in case: this is
      why a mixed-case `domain-name` input still matches the provider's names. */
  lemma ToLowerIdentifiesCase(s: string, t: string)
    ensures ToLower(s) == ToLower(t) <==> EqualIgnoringCase(s, t)
  {
  }

  /** Lines 72-74 of index.js, without the reading of the inputs. */
  function Normalise(inputs: ActionInputs): (p: ActionInputs)
    ensures p.hostedZoneId == inputs.hostedZoneId
    ensures NoUpper(p.domainName) && EqualIgnoringCase(inputs.domainName, p.domainName)
    ensures NoUpper(p.loadBalancerDns) && EqualIgnoringCase(inputs.loadBalancerDns, p.loadBalancerDns)
  {
    ActionInputs(inputs.hostedZoneId, ToLower(inputs.domainName), ToLower(inputs.loadBalancerDns))
  }

  /** Normalising already-normalised inputs changes nothing. */
  lemma NormaliseIdempotent(inputs: ActionInputs)
    ensures Normalise(Normalise(inputs)) == Normalise(inputs)
  {
  }
}
