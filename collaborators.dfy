/**
 * The services the provisioning core drives, reduced to what it can see of
 * them: the Irrigation ingress client (ingress handles, their rule sets and
 * the certificate store) and the Let's Encrypt client. `applyRules`,
 * `uploadCertificate` and issuance are recorded in per-collaborator
 * histories, so that the number and arguments of those calls can be stated;
 * whether one of them succeeds is handed in as a parameter. Issuance also
 * records, for the ingress the challenge traffic goes through, the rule set
 * it routes by and how many rule sets had been applied to it when issuance
 * is requested, which is what places issuance between the patch and the
 * rollback. `describeIngress`
 * records nothing and fails exactly for names missing from the directory;
 * `describeRules` records nothing either.
 */
module Collaborators {
  import opened Outcomes
  import opened Rules

  /** Certificate and private key, kept as opaque strings. */
  datatype KeyPair = KeyPair(cert: string, key: string)

  /**
   * The state of an ingress when issuance was requested: the rule set it
   * routed by and the number of `applyRules` calls it had received.
   */
  datatype Routing = Routing(ingress: Ingress, rules: seq<Rule>, applies: nat)

  /** One `uploadCertificate(name, cert, key)` call. */
  datatype Upload = Upload(name: Option<string>, cert: string, key: string)

  /** An ingress of the load balancer, as reached through `describeIngress`. */
  class Ingress {
    /** The rule set the ingress currently routes by. */
    var rules: seq<Rule>
    /** Every rule set submitted with `applyRules`, in call order, accepted or not. */
    var applied: seq<seq<Rule>>

    constructor (rules: seq<Rule>)
      ensures this.rules == rules && applied == []
    {
      this.rules := rules;
      applied := [];
    }

    /** `describeRules()`: the current rule set, or a failure. */
    method DescribeRules(answers: bool) returns (r: Option<seq<Rule>>)
      ensures answers ==> r == Some(rules)
      ensures !answers ==> r == None
    {
      r := if answers then Some(rules) else None;
    }

    /** `applyRules(rs)`: replaces the whole rule set when the ingress accepts it. */
    method ApplyRules(rs: seq<Rule>, accepted: bool) returns (ok: bool)
      modifies this
      ensures applied == old(applied) + [rs]
      ensures ok == accepted
      ensures rules == if accepted then rs else old(rules)
    {
      applied := applied + [rs];
      ok := accepted;
      if accepted {
        rules := rs;
      }
    }
  }

  /** The Irrigation client: a directory of ingresses and a certificate store. */
  class Irrigation {
    const ingresses: map<string, Ingress>
    /** Every `uploadCertificate` call, in order, accepted or not. */
    var uploads: seq<Upload>

    constructor (ingresses: map<string, Ingress>)
      ensures this.ingresses == ingresses && uploads == []
    {
      this.ingresses := ingresses;
      uploads := [];
    }

    /** `describeIngress(name)`: fails for a name the control plane does not know. */
    method DescribeIngress(name: string) returns (r: Option<Ingress>)
      ensures name in ingresses ==> r == Some(ingresses[name])
      ensures name !in ingresses ==> r == None
    {
      r := if name in ingresses then Some(ingresses[name]) else None;
    }

    /** `uploadCertificate(name, cert, key)`. */
    method UploadCertificate(name: Option<string>, cert: string, key: string, accepted: bool) returns (ok: bool)
      modifies this`uploads
      ensures uploads == old(uploads) + [Upload(name, cert, key)]
      ensures ok == accepted
    {
      uploads := uploads + [Upload(name, cert, key)];
      ok := accepted;
    }
  }

  /** The Let's Encrypt client. */
  class LetsEncrypt {
    /** The domain lists issuance was requested for, in order. */
    var requests: seq<seq<string>>
    /**
     * For each request, the state of the ingress challenge traffic goes
     * through when it was made: HTTP-01 validation only reaches this service
     * while the challenge rules are installed.
     */
    ghost var routedBy: seq<Routing>

    constructor ()
      ensures requests == [] && routedBy == []
    {
      requests := [];
      routedBy := [];
    }

    /**
     * `provision(name)` is `Issue([name])`, `provisionDomains(domains)` is
     * `Issue(domains)`: either a certificate and key or a failure.
     * `via` is the ingress the validation requests reach this service through.
     */
    method Issue(domains: seq<string>, ghost via: Ingress, reply: Option<KeyPair>) returns (r: Option<KeyPair>)
      modifies this
      ensures requests == old(requests) + [domains]
      ensures routedBy == old(routedBy) + [Routing(via, via.rules, |via.applied|)]
      ensures r == reply
    {
      requests := requests + [domains];
      routedBy := routedBy + [Routing(via, via.rules, |via.applied|)];
      r := reply;
    }
  }
}
