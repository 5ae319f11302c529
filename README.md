# Provisioning orchestrator of irrigation-lets-encrypt

This project models the `Core` class of `core.js` in Dafny. The class is the
orchestrator that gets Let's Encrypt certificates for sites behind an
Irrigation ingress. It has two operations:

- `provision(name, config)` registers a record under the site name. It then
  fetches the ingress rule set and appends one `host.path-prefix` rule. That
  rule sends `/.well-known` on the site's host to the well-known target pool,
  so that ACME HTTP-01 validation (RFC 8555, section 8.3) reaches this
  service. It applies the patched set and asks Let's Encrypt for a
  certificate. On success it uploads the pair under the configured
  certificate name and marks the record `provisioned`. In a `finally` block
  it always applies the patched set again with every rule aimed at the
  well-known pool removed.
- `provisionDomains(ingress, domains)` does the same for a list of domains
  that share one record object. It adds one rule per domain, matching the
  domain plus a suffix taken from the port of the ingress address. On
  success it returns the certificate and key instead of uploading them.

Layout:

- `outcomes.dfy` (`Outcomes`) holds the Option and Result datatypes.
- `rules.dfy` (`Rules`) holds the rule datatype, the appended challenge rules
  and the rollback filter `WithoutPool`, with lemmas on order, multiplicity
  and what the rollback restores.
- `ports.dfy` (`Ports`) holds the port-suffix rule of core.js:62-67.
- `collaborators.dfy` (`Collaborators`) holds the ingress, the Irrigation
  client and the Let's Encrypt client as classes. `applyRules`,
  `uploadCertificate` and issuance are recorded in per-collaborator
  histories, and whether one of them succeeds is a parameter. Issuance also
  records, as ghost state, the ingress the validation goes through, the rule
  set that ingress routes by and how many rule sets had been applied to it
  when issuance is requested; that is how the model states that issuance
  comes after the patch and before the rollback. `describeIngress` fails exactly for names
  missing from the directory. `address()` is represented by its port reply.
- `provisioning.dfy` (`Provisioning`) holds the `Record` and `Core` classes.
  It also holds `SiteRun` and `DomainsRun`, which give the effect of each
  operation for every combination of collaborator replies. The methods are
  proved to produce exactly those effects. Lemmas state what the effects
  promise.

Points where the code behaves in ways that are easy to misread:

- The status literal is `"proivsioning"`, spelled as in the code.
  No `failed` status is ever set.
- The rollback removes every rule aimed at the well-known pool. This
  includes rules that targeted the pool before the call. It is not limited
  to the rules this call added.
- JavaScript lets an exception thrown in `finally` replace the outcome of
  `try`. So a rejected rollback is the error the call ends with, even after
  the try block succeeded (issuance, and for provision also the upload). In
  that case the record is already `provisioned`
  and the challenge rule stays installed on the ingress.
- `url.port == 80` compares the port string loosely with a number. The WHATWG
  URL parser reports a port equal to the scheme's default as the empty
  string. So `http://host:80` gives the suffix `":"`, not a bare host.
  Among the ports the URL parser reports, only `"80"` gives the bare host
  (`Ports.SerializedPortSuffix`). On arbitrary strings the loose comparison
  also accepts zero-padded forms such as `"080"` (`Ports.LooselyEqualsEighty`).

## Model

| member | source | states |
|---|---|---|
| `Rules.ChallengeRule` | core.js:27 | the rule literal: type "host.path-prefix", the given host, prefix "/.well-known", the well-known pool as target; the same literal is pushed at core.js:72 |
| `Rules.ChallengeRules` | core.js:71-73 | one rule per domain, in input order; rule i matches domain i followed by the suffix, routes `/.well-known` and targets the pool |
| `Rules.WithoutPool` | core.js:41 | the rollback set holds exactly the rules whose target is not the pool, and is no longer than the input |
| `Rules.WithoutPoolAppend` | core.js:87 | filtering a concatenation is the concatenation of the filtered parts |
| `Rules.WithoutPoolIsSubsequence` | core.js:41 | the rules that survive the rollback keep their relative order |
| `Rules.WithoutPoolCounts` | core.js:87 | every rule aimed elsewhere survives as many times as it occurred; no copy of a pool rule survives |
| `Rules.WithoutPoolKeepsClean` | core.js:41 | a rule set with no pool rule passes the filter unchanged |
| `Rules.WithoutPoolDropsPool` | core.js:87 | a rule set made only of pool rules filters to nothing |
| `Rules.RollbackAfterPatch` | core.js:27-42 | the rollback of fetched rules plus pool rules equals the filtered fetched rules, and equals the fetched rules themselves when they held no pool rule |
| `Ports.LooselyEqualsEighty` | core.js:63 | a port string is loosely equal to 80 exactly when it is some zeros followed by "80" |
| `Ports.PortSuffix` | core.js:62-67 | the suffix is empty for a port that is some zeros followed by "80", and ":" followed by the port for every other string, the empty one included |
| `Ports.SerializedPortSuffix` | core.js:60-67 | for every port the URL parser can report, the suffix is empty only for "80"; the empty port (a default port) gives ":" |
| `Ports.PortSuffixExamples` | core.js:63-67 | port "8080" gives ":8080", the empty port gives ":", port "80" gives "" |
| `Collaborators.Ingress.DescribeRules` | core.js:24 | answers the ingress's current rule set, or fails |
| `Collaborators.Ingress.ApplyRules` | core.js:28 | every call is recorded; an accepted call replaces the whole rule set, a rejected one leaves it |
| `Collaborators.Irrigation.DescribeIngress` | core.js:23 | answers the ingress registered under the name, or fails for an unknown name |
| `Collaborators.Irrigation.UploadCertificate` | core.js:33 | records the upload of the name, certificate and key, and reports whether it was accepted |
| `Collaborators.LetsEncrypt.Issue` | core.js:31 | records the domains issuance was asked for and, for the given ingress, the rule set it routes by and the number of applies it has received at that moment, and answers the pair or a failure |
| `Provisioning.SiteRun` | core.js:20-43 | the effect of provision once the ingress is found: the rule sets applied, the issuance requests, the uploads, the rules left installed, the record's status and context, and the failure, for every combination of collaborator replies; its properties are the SiteRunRules and SiteRunRecord lemmas |
| `Provisioning.DomainsRun` | core.js:56-89 | the same for provisionDomains; its properties are the DomainsRunRules and DomainsRunRecord lemmas |
| `Provisioning.Finally` | core.js:40-43 | the finally block, shared with core.js:86-89: the patched rules minus the pool rules are applied, and a rejected apply replaces the outcome of the try block |
| `Provisioning.SiteRunRules` | core.js:22-43 | provision first applies the fetched rules plus one challenge rule for the name, at the end; the rollback is issued exactly when that patch was accepted and submits the fetched rules without pool rules; issuance is asked for, for the name alone, exactly when the patch was accepted; a rejected rollback leaves the patch installed |
| `Provisioning.SiteRunRecord` | core.js:30-43 | the pair is uploaded under the configured name once issued; the record gets the context and "provisioned" exactly when issuance and upload both succeed, otherwise it stays "proivsioning" with no context; the call completes exactly when the record is completed and the rollback is accepted |
| `Provisioning.DomainsRunRules` | core.js:58-89 | provisionDomains fails before any apply when the address or the rules are unavailable; its first apply is the fetched rules followed by one rule per domain in input order, each host being domain plus port suffix; the rollback is issued exactly when the patch was accepted and submits the fetched rules without pool rules |
| `Provisioning.DomainsRunRecord` | core.js:76-89 | provisionDomains never uploads; the shared record gets the context and "provisioned" exactly when the patch was accepted and issuance succeeds; a rejected rollback is the error the call ends with |
| `Provisioning.SiteRollbackKeepsOtherRules` | core.js:40-43 | after provision's patch, whatever issuance and upload do, the rollback keeps every rule aimed elsewhere once each and in order, drops every pool rule, and restores the fetched set exactly when it held no pool rule |
| `Provisioning.DomainsRollbackKeepsOtherRules` | core.js:86-89 | the same rollback guarantee for provisionDomains |
| `Provisioning.PushChallengeRules` | core.js:71-73 | the push loop leaves the fetched rules followed by the challenge rules of all domains, in order |
| `Provisioning.Record.ForSite` | core.js:13-18 | a new site record is "proivsioning", has no context and copies the ingress and certificate names from the request |
| `Provisioning.Record.ForDomains` | core.js:48-52 | a new shared record is "proivsioning", has no context and keeps the ingress name and the domain list |
| `Provisioning.Record.Complete` | core.js:34-39 | the record takes the certificate and key as context and becomes "provisioned" |
| `Provisioning.Core.constructor` | core.js:3-9 | a new orchestrator has no sites and keeps its collaborators and the well-known pool |
| `Provisioning.Core.Provision` | core.js:12-23 | the name is bound to a fresh record before anything else, replacing any earlier record; for an unknown ingress the call fails with the record left "proivsioning" and nothing applied, uploaded or requested; otherwise the ingress, the uploads, the issuance requests, the record and the outcome are as SiteRun gives, and issuance is requested on that ingress after exactly one apply, the patch, while the patched set is installed |
| `Provisioning.Core.ProvisionOn` | core.js:20-43 | once the ingress is known, the applied rule sets, the installed rules, the requests, the uploads, the record and the outcome are those of SiteRun; issuance is requested when the ingress has received exactly one apply of this call, the patch, and routes by the patched set, so after the patch and before the rollback |
| `Provisioning.Core.RegisterAll` | core.js:53-55 | every domain is bound to the same record object; all other entries stay as they were |
| `Provisioning.Core.ProvisionDomains` | core.js:47-59 | every domain is bound to one fresh shared record before anything else; the certificate store is never touched; for an unknown ingress the call fails with nothing applied or requested; otherwise the effects and the result are as DomainsRun gives, issuance is requested on that ingress after exactly one apply, the patch, while the patched set is installed, and on success the result is the issued pair |
| `Provisioning.Core.ProvisionDomainsOn` | core.js:56-89 | once the ingress is known, the applied rule sets, the installed rules, the requests, the shared record and the result are those of DomainsRun; issuance is requested when the ingress has received exactly one apply of this call, the patch, and routes by the patched set, so after the patch and before the rollback |

## Left out

- Network calls, `await` and the logger are not modelled. Each call is one sequential step. The success of `describeRules`, `applyRules`, `uploadCertificate` and issuance is a parameter (`Replies`); `describeIngress` is decided by the directory of ingresses; `address()` and the URL parse are folded into the port reply. `describeIngress` and `describeRules` leave no history entry, and the order of calls across collaborators is stated only for issuance against the ingress's rule set.
- Interleaving of concurrent provisioning calls is not modelled. Each call runs alone.
- URL parsing is not modelled. The port string the parser reports is an input, and a failed parse counts as a failed `address()`.
- `Ports.LooselyEqualsEighty` treats a string as loosely equal to 80 only when it is all decimal digits. JavaScript's other numeric forms (blanks, hexadecimal, exponents, signs) are not modelled, because the URL parser never reports a port in those forms.
- `Provisioning.Core.wellknownTargetPool` is fixed when the orchestrator is built. core.js:20 and core.js:56 read the `wellknown-target-pool` setting again on every call from a config object the caller still holds; the model takes that setting as constant.
- Rule targets are compared as strings. The loose `!=` of core.js:41 and core.js:87 is the same on strings. A missing `wellknown-target-pool` setting (undefined) is not modelled.
- A rejected `applyRules` is taken to leave the ingress's rule set unchanged. The ingress's real behaviour on failure is not visible in the code.
- `certificateName` and `secureIngress` may be absent from the request, so they are `Option` values. `secureIngress` is stored but never used, as in the code.
- The Let's Encrypt client is not modelled inside. `provision(name)` is a request for `[name]` and `provisionDomains(domains)` a request for `domains`. Certificates and keys are opaque strings, so `.toString()` does nothing.
- The HTTP control plane, service bootstrap, command-line client, HTTP client, integration script and logging adapter are not part of this model.
- There is no challenge store, challenge responder, rate limiter, per-site lock or timeout in this code, so none is modelled.
