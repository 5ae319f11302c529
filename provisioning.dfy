/**
 * The provisioning orchestrator of core.js: the `Core` class with its
 * `sites` registry, `provision` for one site and `provisionDomains` for a
 * list of domains sharing one record.
 *
 * Each operation is a method over the collaborator objects. What a call
 * does to them, for every combination of collaborator replies, is given by
 * a specification function (SiteRun, DomainsRun); the properties the
 * orchestrator promises are stated about those functions by the lemmas
 * SiteRunRules, SiteRunRecord, DomainsRunRules, DomainsRunRecord and the
 * two RollbackKeepsOtherRules lemmas.
 */
module Provisioning {
  import opened Outcomes
  import opened Rules
  import opened Ports
  import opened Collaborators

  /** The status literals, spelled as core.js spells them. */
  const StatusProvisioning: string := "proivsioning"
  const StatusProvisioned: string := "provisioned"

  /** The `config` body of a single-site request. */
  datatype SiteConfig = SiteConfig(
    plainIngress: string,
    secureIngress: Option<string>,
    certificateName: Option<string>)

  /**
   * How each collaborator call turns out. `port` is the port component of
   * the URL `address()` answers (None: the call or the URL parse fails);
   * only provisionDomains asks for it. `issued` is the Let's Encrypt reply.
   * `uploadAccepted` is only consulted by provision.
   */
  datatype Replies = Replies(
    rulesAnswered: bool,
    port: Option<string>,
    patchAccepted: bool,
    issued: Option<KeyPair>,
    uploadAccepted: bool,
    rollbackAccepted: bool)

  /** The collaborator call whose failure a provisioning call fails with. */
  datatype Failure =
    | UnknownIngress      // describeIngress
    | AddressUnavailable  // address, or the URL it answers
    | RulesUnavailable    // describeRules
    | PatchRejected       // the applyRules carrying the new .well-known rules
    | IssuanceFailed      // Let's Encrypt
    | UploadRejected      // uploadCertificate
    | RollbackRejected    // the applyRules of the finally block; replaces any earlier outcome

  /**
   * The effect of one provisioning call on an ingress that exists: the rule
   * sets submitted, the issuance requests and uploads made, the rule set the
   * ingress is left with, the record's final status and context, and the
   * failure the call ends with (None: it completes).
   */
  datatype Run = Run(
    applies: seq<seq<Rule>>,
    requests: seq<seq<string>>,
    uploads: seq<Upload>,
    installed: seq<Rule>,
    status: string,
    context: Option<KeyPair>,
    failure: Option<Failure>)

  /**
   * `provision` (core.js:12-44) once describeIngress has found the ingress,
   * whose rule set is `current`.
   */
  function SiteRun(current: seq<Rule>, name: string, certificateName: Option<string>,
                   pool: string, replies: Replies): Run
  {
    if !replies.rulesAnswered then
      Run([], [], [], current, StatusProvisioning, None, Some(RulesUnavailable))
    else
      var added := [ChallengeRule(name, pool)];
      var patched := current + added;
      if !replies.patchAccepted then
        Run([patched], [], [], current, StatusProvisioning, None, Some(PatchRejected))
      else
        match replies.issued
        case None =>
          Finally(patched, pool, replies.rollbackAccepted, [[name]], [], None, Some(IssuanceFailed))
        case Some(pair) =>
          var upload := Upload(certificateName, pair.cert, pair.key);
          if !replies.uploadAccepted then
            Finally(patched, pool, replies.rollbackAccepted, [[name]], [upload], None, Some(UploadRejected))
          else
            Finally(patched, pool, replies.rollbackAccepted, [[name]], [upload], Some(pair), None)
  }

  /**
   * `provisionDomains` (core.js:47-90) once describeIngress has found the
   * ingress, whose rule set is `current`.
   */
  function DomainsRun(current: seq<Rule>, domains: seq<string>, pool: string, replies: Replies): Run
  {
    match replies.port
    case None =>
      Run([], [], [], current, StatusProvisioning, None, Some(AddressUnavailable))
    case Some(port) =>
      if !replies.rulesAnswered then
        Run([], [], [], current, StatusProvisioning, None, Some(RulesUnavailable))
      else
        var added := ChallengeRules(domains, PortSuffix(port), pool);
        var patched := current + added;
        if !replies.patchAccepted then
          Run([patched], [], [], current, StatusProvisioning, None, Some(PatchRejected))
        else
          Finally(patched, pool, replies.rollbackAccepted, [domains], [], replies.issued,
                  if replies.issued.None? then Some(IssuanceFailed) else None)
  }

  /**
   * The end of a call whose patch was applied: the finally block applies the
   * patched rules minus the pool rules; if that is rejected, its error is
   * the one the call ends with.
   */
  function Finally(patched: seq<Rule>, pool: string, rollbackAccepted: bool,
                   requests: seq<seq<string>>, uploads: seq<Upload>,
                   context: Option<KeyPair>, failure: Option<Failure>): Run
  {
    var remaining := WithoutPool(patched, pool);
    Run([patched, remaining], requests, uploads,
        if rollbackAccepted then remaining else patched,
        if context.Some? then StatusProvisioned else StatusProvisioning,
        context,
        if rollbackAccepted then failure else Some(RollbackRejected))
  }

  /**
   * The ingress side of provision: which rule sets it submits and what the
   * ingress is left routing by, for every combination of replies.
   */
  lemma SiteRunRules(current: seq<Rule>, name: string, certificateName: Option<string>,
                     pool: string, replies: Replies, run: Run)
    requires run == SiteRun(current, name, certificateName, pool, replies)
    // The first rule set applied is the fetched one plus exactly one rule, at the end.
    ensures run.applies == [] <==> !replies.rulesAnswered
    ensures run.applies != [] ==> run.applies[0] == current + [ChallengeRule(name, pool)]
    // The rollback is issued exactly when the patch was applied ...
    ensures |run.applies| <= 2
    ensures |run.applies| == 2 <==> replies.rulesAnswered && replies.patchAccepted
    // ... and submits the fetched rules minus every rule aimed at the pool.
    ensures |run.applies| == 2 ==> run.applies[1] == WithoutPool(current, pool)
    // Issuance is requested, for `name` alone, exactly when the patch was
    // accepted; the methods' contracts add that the patch is what the ingress
    // routes by at that moment.
    ensures run.requests == if |run.applies| == 2 then [[name]] else []
    // What the ingress routes by afterwards: a rejected rollback leaves the
    // challenge rule installed.
    ensures |run.applies| < 2 ==> run.installed == current
    ensures |run.applies| == 2 && replies.rollbackAccepted ==> run.installed == WithoutPool(current, pool)
    ensures |run.applies| == 2 && !replies.rollbackAccepted ==> run.installed == run.applies[0]
  {
    if replies.rulesAnswered && replies.patchAccepted {
      var added := [ChallengeRule(name, pool)];
      RollbackAfterPatch(current, added, pool);
      assert run.applies == [current + added, WithoutPool(current + added, pool)];
    }
  }

  /**
   * The record side of provision: uploads, status, context and the outcome
   * of the call, for every combination of replies.
   */
  lemma SiteRunRecord(current: seq<Rule>, name: string, certificateName: Option<string>,
                      pool: string, replies: Replies, run: Run)
    requires run == SiteRun(current, name, certificateName, pool, replies)
    ensures var patched := replies.rulesAnswered && replies.patchAccepted;
      // The certificate is uploaded, under the configured name, once issued.
      && run.uploads == (if patched && replies.issued.Some?
                         then [Upload(certificateName, replies.issued.value.cert, replies.issued.value.key)]
                         else [])
      // The record is completed only when issuance and upload both succeed.
      && (run.context.Some? <==> patched && replies.issued.Some? && replies.uploadAccepted)
      && (run.context.Some? ==> run.context == replies.issued)
      && run.status == (if run.context.Some? then StatusProvisioned else StatusProvisioning)
      // The call completes exactly when the record is completed and the
      // rollback is accepted; a rejected rollback is the error it ends with.
      && (run.failure == None <==> run.context.Some? && replies.rollbackAccepted)
      && (patched && !replies.rollbackAccepted ==> run.failure == Some(RollbackRejected))
  {
  }

  /**
   * The ingress side of provisionDomains: which rule sets it submits and
   * what the ingress is left routing by, for every combination of replies.
   */
  lemma DomainsRunRules(current: seq<Rule>, domains: seq<string>, pool: string, replies: Replies, run: Run)
    requires run == DomainsRun(current, domains, pool, replies)
    ensures run.applies == [] <==> replies.port.None? || !replies.rulesAnswered
    // One rule per domain, in input order, after the fetched rules; each
    // matches the domain followed by the port suffix.
    ensures run.applies != [] ==>
      && |run.applies[0]| == |current| + |domains|
      && run.applies[0][..|current|] == current
      && forall i :: 0 <= i < |domains| ==>
           run.applies[0][|current| + i] == ChallengeRule(domains[i] + PortSuffix(replies.port.value), pool)
    ensures |run.applies| <= 2
    ensures |run.applies| == 2 <==> replies.port.Some? && replies.rulesAnswered && replies.patchAccepted
    ensures |run.applies| == 2 ==> run.applies[1] == WithoutPool(current, pool)
    ensures run.requests == if |run.applies| == 2 then [domains] else []
    ensures |run.applies| < 2 ==> run.installed == current
    ensures |run.applies| == 2 && replies.rollbackAccepted ==> run.installed == WithoutPool(current, pool)
    ensures |run.applies| == 2 && !replies.rollbackAccepted ==> run.installed == run.applies[0]
  {
    if replies.port.Some? && replies.rulesAnswered {
      var added := ChallengeRules(domains, PortSuffix(replies.port.value), pool);
      assert (current + added)[..|current|] == current;
      if replies.patchAccepted {
        RollbackAfterPatch(current, added, pool);
      }
    }
  }

  /**
   * The record side of provisionDomains: nothing is uploaded, and the
   * shared record is completed exactly when issuance succeeds.
   */
  lemma DomainsRunRecord(current: seq<Rule>, domains: seq<string>, pool: string, replies: Replies, run: Run)
    requires run == DomainsRun(current, domains, pool, replies)
    ensures var patched := replies.port.Some? && replies.rulesAnswered && replies.patchAccepted;
      && run.uploads == []
      && (run.context.Some? <==> patched && replies.issued.Some?)
      && (run.context.Some? ==> run.context == replies.issued)
      && run.status == (if run.context.Some? then StatusProvisioned else StatusProvisioning)
      && (run.failure == None <==> run.context.Some? && replies.rollbackAccepted)
      && (patched && !replies.rollbackAccepted ==> run.failure == Some(RollbackRejected))
  {
  }

  /**
   * Whatever the outcome after the patch, the rollback of provision keeps
   * every rule of the fetched set aimed elsewhere, once each and in its
   * order, drops every rule aimed at the pool, and gives back the fetched
   * set itself when that held no pool rule.
   */
  lemma SiteRollbackKeepsOtherRules(current: seq<Rule>, name: string, certificateName: Option<string>,
                                    pool: string, replies: Replies, r: Rule)
    requires replies.rulesAnswered && replies.patchAccepted
    ensures var rollback := SiteRun(current, name, certificateName, pool, replies).applies[1];
      && Subsequence(rollback, current)
      && multiset(rollback)[r] == (if r.target == pool then 0 else multiset(current)[r])
      && (NoPoolRules(current, pool) ==> rollback == current)
  {
    SiteRunRules(current, name, certificateName, pool, replies, SiteRun(current, name, certificateName, pool, replies));
    WithoutPoolIsSubsequence(current, pool);
    WithoutPoolCounts(current, pool, r);
    if NoPoolRules(current, pool) {
      WithoutPoolKeepsClean(current, pool);
    }
  }

  /** The same rollback guarantee for provisionDomains. */
  lemma DomainsRollbackKeepsOtherRules(current: seq<Rule>, domains: seq<string>, pool: string,
                                       replies: Replies, r: Rule)
    requires replies.port.Some? && replies.rulesAnswered && replies.patchAccepted
    ensures var rollback := DomainsRun(current, domains, pool, replies).applies[1];
      && Subsequence(rollback, current)
      && multiset(rollback)[r] == (if r.target == pool then 0 else multiset(current)[r])
      && (NoPoolRules(current, pool) ==> rollback == current)
  {
    DomainsRunRules(current, domains, pool, replies, DomainsRun(current, domains, pool, replies));
    WithoutPoolIsSubsequence(current, pool);
    WithoutPoolCounts(current, pool, r);
    if NoPoolRules(current, pool) {
      WithoutPoolKeepsClean(current, pool);
    }
  }

  /**
   * The `forEach` of core.js:71-73: pushes onto the fetched rules one
   * challenge rule per domain, in input order.
   */
  method PushChallengeRules(fetched: seq<Rule>, domains: seq<string>, suffix: string, pool: string)
    returns (rules: seq<Rule>)
    ensures rules == fetched + ChallengeRules(domains, suffix, pool)
  {
    rules := fetched;
    var i := 0;
    while i < |domains|
      invariant 0 <= i <= |domains|
      invariant rules == fetched + ChallengeRules(domains[..i], suffix, pool)
    {
      assert domains[..i + 1][..i] == domains[..i];
      rules := rules + [ChallengeRule(domains[i] + suffix, pool)];
      i := i + 1;
    }
    assert domains[..|domains|] == domains;
  }

  /**
   * The record kept in `sites`. provisionDomains stores one record under
   * every domain, so a change to it is seen under each of them.
   */
  class Record {
    var status: string
    var context: Option<KeyPair>
    const plainIngress: string
    const secureIngress: Option<string>
    const certificateName: Option<string>
    const domains: Option<seq<string>>

    /** The record provision writes (core.js:13-18). */
    constructor ForSite(config: SiteConfig)
      ensures status == StatusProvisioning && context == None
      ensures plainIngress == config.plainIngress && secureIngress == config.secureIngress
      ensures certificateName == config.certificateName && domains == None
    {
      status := StatusProvisioning;
      context := None;
      plainIngress := config.plainIngress;
      secureIngress := config.secureIngress;
      certificateName := config.certificateName;
      domains := None;
    }

    /** The record provisionDomains writes (core.js:48-52). */
    constructor ForDomains(ingress: string, domains: seq<string>)
      ensures status == StatusProvisioning && context == None
      ensures plainIngress == ingress && secureIngress == None
      ensures certificateName == None && this.domains == Some(domains)
    {
      status := StatusProvisioning;
      context := None;
      plainIngress := ingress;
      secureIngress := None;
      certificateName := None;
      this.domains := Some(domains);
    }

    /** Stores the issued pair and marks the record provisioned (core.js:34-39, core.js:79-84). */
    method Complete(pair: KeyPair)
      modifies this
      ensures context == Some(pair) && status == StatusProvisioned
    {
      context := Some(pair);
      status := StatusProvisioned;
    }
  }

  class Core {
    /** Site or domain name to its provisioning record. */
    var sites: map<string, Record>
    const irrigation: Irrigation
    const letsEncrypt: LetsEncrypt
    /** `config["wellknown-target-pool"]`: the pool challenge traffic is routed to. */
    const wellknownTargetPool: string

    constructor (irrigation: Irrigation, letsEncrypt: LetsEncrypt, wellknownTargetPool: string)
      ensures sites == map[]
      ensures this.irrigation == irrigation && this.letsEncrypt == letsEncrypt
      ensures this.wellknownTargetPool == wellknownTargetPool
    {
      sites := map[];
      this.irrigation := irrigation;
      this.letsEncrypt := letsEncrypt;
      this.wellknownTargetPool := wellknownTargetPool;
    }

    /** The ingress describeIngress finds under `name`, if any. */
    function IngressNamed(name: string): set<Ingress>
    {
      if name in irrigation.ingresses then {irrigation.ingresses[name]} else {}
    }

    /**
     * `provision(name, config)`: registers a fresh record under `name`
     * (replacing any earlier one) before contacting anything, looks the
     * ingress up, and goes on as ProvisionOn says.
     */
    method Provision(name: string, config: SiteConfig, replies: Replies) returns (failure: Option<Failure>)
      modifies this, irrigation, letsEncrypt, IngressNamed(config.plainIngress)
      ensures name in sites && fresh(sites[name])
      ensures sites == old(sites)[name := sites[name]]
      ensures sites[name].plainIngress == config.plainIngress
      ensures sites[name].secureIngress == config.secureIngress
      ensures sites[name].certificateName == config.certificateName
      ensures sites[name].domains == None
      ensures config.plainIngress !in irrigation.ingresses ==>
        && failure == Some(UnknownIngress)
        && sites[name].status == StatusProvisioning && sites[name].context == None
        && irrigation.uploads == old(irrigation.uploads)
        && letsEncrypt.requests == old(letsEncrypt.requests)
        && letsEncrypt.routedBy == old(letsEncrypt.routedBy)
      ensures config.plainIngress in irrigation.ingresses ==>
        var ingress := irrigation.ingresses[config.plainIngress];
        var run := SiteRun(old(ingress.rules), name, config.certificateName, wellknownTargetPool, replies);
        && ingress.applied == old(ingress.applied) + run.applies
        && ingress.rules == run.installed
        && letsEncrypt.requests == old(letsEncrypt.requests) + run.requests
        // Issuance is requested while the patch is installed on this ingress,
        // after the patch and before the rollback.
        && letsEncrypt.routedBy == old(letsEncrypt.routedBy) +
             (if |run.applies| == 2 then [Routing(ingress, run.applies[0], |old(ingress.applied)| + 1)] else [])
        && irrigation.uploads == old(irrigation.uploads) + run.uploads
        && sites[name].status == run.status
        && sites[name].context == run.context
        && failure == run.failure
    {
      var record := new Record.ForSite(config);
      sites := sites[name := record];

      var found := irrigation.DescribeIngress(record.plainIngress);
      if found.None? {
        return Some(UnknownIngress);
      }
      failure := ProvisionOn(found.value, name, record, replies);
    }

    /**
     * The rest of provision once describeIngress has answered with
     * `ingress` (core.js:20-43), for a record not yet completed.
     */
    method ProvisionOn(ingress: Ingress, name: string, record: Record, replies: Replies)
      returns (failure: Option<Failure>)
      requires record.status == StatusProvisioning && record.context == None
      modifies ingress, irrigation`uploads, letsEncrypt, record
      ensures var run := SiteRun(old(ingress.rules), name, record.certificateName, wellknownTargetPool, replies);
        && ingress.applied == old(ingress.applied) + run.applies
        && ingress.rules == run.installed
        && letsEncrypt.requests == old(letsEncrypt.requests) + run.requests
        // Issuance is requested while the patch is installed on this ingress,
        // after the patch and before the rollback.
        && letsEncrypt.routedBy == old(letsEncrypt.routedBy) +
             (if |run.applies| == 2 then [Routing(ingress, run.applies[0], |old(ingress.applied)| + 1)] else [])
        && irrigation.uploads == old(irrigation.uploads) + run.uploads
        && record.status == run.status
        && record.context == run.context
        && failure == run.failure
    {
      var pool := wellknownTargetPool;
      var fetched := ingress.DescribeRules(replies.rulesAnswered);
      if fetched.None? {
        return Some(RulesUnavailable);
      }
      var rules := fetched.value;

      rules := rules + [ChallengeRule(name, pool)];
      var patched := ingress.ApplyRules(rules, replies.patchAccepted);
      if !patched {
        return Some(PatchRejected);
      }

      // try
      failure := None;
      var pair := letsEncrypt.Issue([name], ingress, replies.issued);
      if pair.None? {
        failure := Some(IssuanceFailed);
      } else {
        var uploaded := irrigation.UploadCertificate(record.certificateName, pair.value.cert, pair.value.key,
                                                     replies.uploadAccepted);
        if !uploaded {
          failure := Some(UploadRejected);
        } else {
          record.Complete(pair.value);
        }
      }
      // finally
      var remaining := WithoutPool(rules, pool);
      var restored := ingress.ApplyRules(remaining, replies.rollbackAccepted);
      if !restored {
        failure := Some(RollbackRejected);
      }
    }

    /** `domains.forEach(d => this.sites[d] = record)` (core.js:53-55). */
    method RegisterAll(domains: seq<string>, record: Record)
      modifies this`sites
      ensures sites == old(sites) + map d | d in domains :: record
    {
      var i := 0;
      while i < |domains|
        invariant 0 <= i <= |domains|
        invariant sites == old(sites) + map d | d in domains[..i] :: record
      {
        assert domains[..i + 1] == domains[..i] + [domains[i]];
        sites := sites[domains[i] := record];
        i := i + 1;
      }
      assert domains[..|domains|] == domains;
    }

    /**
     * `provisionDomains(ingress, domains)`: registers one fresh record under
     * every domain before contacting anything, looks the ingress up, and
     * goes on as ProvisionDomainsOn says. It never touches the certificate
     * store.
     */
    method ProvisionDomains(ingressName: string, domains: seq<string>, replies: Replies)
      returns (result: Result<KeyPair, Failure>, ghost record: Record)
      modifies this, letsEncrypt, IngressNamed(ingressName)
      ensures fresh(record)
      ensures record.plainIngress == ingressName && record.domains == Some(domains)
      ensures record.secureIngress == None && record.certificateName == None
      ensures sites == old(sites) + map d | d in domains :: record
      ensures irrigation.uploads == old(irrigation.uploads)
      ensures ingressName !in irrigation.ingresses ==>
        && result == Err(UnknownIngress)
        && record.status == StatusProvisioning && record.context == None
        && letsEncrypt.requests == old(letsEncrypt.requests)
        && letsEncrypt.routedBy == old(letsEncrypt.routedBy)
      ensures ingressName in irrigation.ingresses ==>
        var ingress := irrigation.ingresses[ingressName];
        var run := DomainsRun(old(ingress.rules), domains, wellknownTargetPool, replies);
        && ingress.applied == old(ingress.applied) + run.applies
        && ingress.rules == run.installed
        && letsEncrypt.requests == old(letsEncrypt.requests) + run.requests
        // Issuance is requested while the patch is installed on this ingress,
        // after the patch and before the rollback.
        && letsEncrypt.routedBy == old(letsEncrypt.routedBy) +
             (if |run.applies| == 2 then [Routing(ingress, run.applies[0], |old(ingress.applied)| + 1)] else [])
        && record.status == run.status
        && record.context == run.context
        && result == if run.failure.Some? then Err(run.failure.value) else Ok(run.context.value)
    {
      var shared := new Record.ForDomains(ingressName, domains);
      record := shared;
      RegisterAll(domains, shared);

      var found := irrigation.DescribeIngress(shared.plainIngress);
      if found.None? {
        return Err(UnknownIngress), record;
      }
      result := ProvisionDomainsOn(found.value, domains, shared, replies);
    }

    /**
     * The rest of provisionDomains once describeIngress has answered with
     * `ingress` (core.js:56-89), for a record not yet completed; on success
     * the issued pair is returned, not uploaded.
     */
    method ProvisionDomainsOn(ingress: Ingress, domains: seq<string>, record: Record, replies: Replies)
      returns (result: Result<KeyPair, Failure>)
      requires record.status == StatusProvisioning && record.context == None
      modifies ingress, letsEncrypt, record
      ensures var run := DomainsRun(old(ingress.rules), domains, wellknownTargetPool, replies);
        && ingress.applied == old(ingress.applied) + run.applies
        && ingress.rules == run.installed
        && letsEncrypt.requests == old(letsEncrypt.requests) + run.requests
        // Issuance is requested while the patch is installed on this ingress,
        // after the patch and before the rollback.
        && letsEncrypt.routedBy == old(letsEncrypt.routedBy) +
             (if |run.applies| == 2 then [Routing(ingress, run.applies[0], |old(ingress.applied)| + 1)] else [])
        && record.status == run.status
        && record.context == run.context
        && result == if run.failure.Some? then Err(run.failure.value) else Ok(run.context.value)
    {
      var pool := wellknownTargetPool;
      if replies.port.None? {
        return Err(AddressUnavailable);
      }
      var suffix := PortSuffix(replies.port.value);
      var fetched := ingress.DescribeRules(replies.rulesAnswered);
      if fetched.None? {
        return Err(RulesUnavailable);
      }
      var rules := fetched.value;

      rules := PushChallengeRules(rules, domains, suffix, pool);
      var patched := ingress.ApplyRules(rules, replies.patchAccepted);
      if !patched {
        return Err(PatchRejected);
      }

      // try
      var pair := letsEncrypt.Issue(domains, ingress, replies.issued);
      if pair.None? {
        result := Err(IssuanceFailed);
      } else {
        record.Complete(pair.value);
        result := Ok(pair.value);
      }
      // finally
      var remaining := WithoutPool(rules, pool);
      var restored := ingress.ApplyRules(remaining, replies.rollbackAccepted);
      if !restored {
        result := Err(RollbackRejected);
      }
    }
  }
}
