# MCP deployment tooling — a Dafny model

This project models the sequential logic inside the operations tooling of an MCP
(Model Context Protocol) server deployment, and proves properties of that model.
The tooling is mostly glue around AWS, Cloudflare, Docker and HTTP. The logic modelled is:

- **Secrets wrapper** (`scripts/aws-secrets-manager.py` and its JavaScript twin
  `scripts/aws-secrets-manager.js`). It keeps a one-hour TTL cache in front of AWS Secrets
  Manager and resolves logical secret names through `MCP_SECRET_MAPPINGS`, preferring the
  `_BEEPMEDIA` account variant. The Python version also injects secrets into the environment.
  Modules `PySecrets` and `JsSecrets`; the two versions are compared by lemmas.
- **Secret distribution** (`scripts/inject-secrets.py`). It resolves the union of the names the
  servers need, writes one mode-0600 JSON file per server, and writes a combined file.
  Module `InjectSecrets`.
- **Two MCP HTTP bridges** (`mcp-bridge-fixed/server-v2.js` and `clean-mcp-bridge/server.js`).
  Each bridge puts a Basic-auth gate in front of per-session child processes that speak MCP
  over stdio. It frames stdout into lines, keeps a FIFO queue of responses, and streams them as
  server-sent events (section 9.2 of the HTML Living Standard). Modules `BridgeCommon`,
  `FixedBridge` and `CleanBridge`. Sessions and bridges are classes whose handlers are
  sequential methods.
- **Build-and-test harnesses** (`scripts/build-and-test-all.py`, `scripts/test-all-mcp-servers.py`).
  Each runs a per-server state machine (build, then protocol probe) and tallies a report. Both
  share a stdout scan for a JSON-RPC 2.0 response object (section 5 of the JSON-RPC 2.0
  specification). Modules `BuildAndTestAll`, `TestAllServers` and `ResponseProbe`.
- **Ops helpers**:
  - the Elastic-IP audit (`check_elastic_ips.py`, module `ElasticIps`);
  - the Cloudflare DNS updater (`repos/update_cloudflare_dns.py`, module `CloudflareDns`);
  - the security-group script (`repos/update_security_group.py`, module `SecurityGroup`).

Every external effect is an input:

- the secrets store, JSON parsing and serialisation, base64 decoding and the HTTP and shell
  calls are function-typed parameters;
- the clock is an integer `now`;
- files on disk and the environment are maps.

Python and JavaScript semantics the code relies on are written out in `Json`, `Text` and
`Assoc`. These cover truthiness, `str()`, `in`, `dict.get`, `str.split`, `strip`, `lower`,
path joining and insertion-ordered dicts. They are modelling helpers and have no row below.

Where the code surprises, the model follows the code and a lemma states the behaviour. Examples:
- `key=None`, `key=""` and `key="full"` share one cache entry;
- Basic auth compares only the text between the first and second colon, so a key with a colon
  never matches;
- the two secrets wrappers disagree on empty secrets and falsy passwords;
- the older bridge loses a JSON line split across two stdout chunks;
- removing `../` in one pass can leave a `../`;
- group sources are shown as `sg-sg-…`;
- only a rule's `FromPort` counts towards the required ports;
- the gdrive secrets file is always empty.

## Model

| member | source | states |
|---|---|---|
| PySecrets.SecretsManager.constructor | scripts/aws-secrets-manager.py:17-20 | a new manager starts with an empty cache and has sent no request |
| PySecrets.SecretsManager.GetSecret | scripts/aws-secrets-manager.py:22-66 | a live entry (expiry strictly after now) under `name:key-or-full` is returned without a request; otherwise exactly one request for the name is sent, the result is the parsed secret (or its raw text) narrowed to the key, and only a success is cached, with expiry now + 1 hour |
| PySecrets.SecretsManager.ClearCache | scripts/aws-secrets-manager.py:68-70 | the cache is emptied and the request log is unchanged |
| PySecrets.LookupTwiceWithinTtl | scripts/aws-secrets-manager.py:33-62 | two lookups of one key within the hour return the same value and send one request when the first succeeded, two when it failed |
| PySecrets.LookupAfterExpiry | scripts/aws-secrets-manager.py:36-42 | once the hour is up the second lookup sends a second request and returns a fresh fetch |
| PySecrets.LookupAfterClear | scripts/aws-secrets-manager.py:68-70 | after clearing, the next lookup of the same key sends a second request |
| PySecrets.FullKeyAliasesWholeSecret | scripts/aws-secrets-manager.py:33 | once the whole secret is cached, a lookup with key "full" returns the whole secret |
| PySecrets.CacheKeyAliases | scripts/aws-secrets-manager.py:33 | no key, the empty key and the key "full" map to one cache entry |
| PySecrets.FetchKeySelection | scripts/aws-secrets-manager.py:45-54 | unparsable text is returned as a string, a string secret is returned whole whatever key is asked, and a dict secret yields the key's value or null |
| PySecrets.GetMcpSecret | scripts/aws-secrets-manager.py:96-126 | the lookup returns exactly `McpSecret`, the value of a fresh manager's fetch |
| PySecrets.BeepmediaVariantPreferred | scripts/aws-secrets-manager.py:111-117 | with the account flag set and a mapped `_BEEPMEDIA` variant, the result is that variant's lookup, or "Unknown MCP secret" when its path is empty |
| PySecrets.PlainNameOtherwise | scripts/aws-secrets-manager.py:111-126 | otherwise an unmapped name raises "Unknown MCP secret: name" and a mapped non-credentials path returns the fetched whole secret |
| PySecrets.CredentialsYieldPassword | scripts/aws-secrets-manager.py:120-124 | on a "credentials" path a dict with a password field yields the password |
| PySecrets.AssignEffect | scripts/aws-secrets-manager.py:143-147 | setting variables in order only adds variables, leaves untouched ones as they were, and the last assignment to a variable wins |
| PySecrets.SetFieldVariables | scripts/aws-secrets-manager.py:143-145 | a dict secret sets `NAME_KEY` (key upper-cased) to `str(v)` for each field, in field order |
| PySecrets.InjectOne | scripts/aws-secrets-manager.py:139-150 | one name sets its variables when its lookup succeeds and nothing when it fails, and reports which |
| PySecrets.FailedNamesIff | scripts/aws-secrets-manager.py:149-150 | a name is logged as failed exactly when it is listed and its lookup fails |
| PySecrets.InjectSecretsToEnv | scripts/aws-secrets-manager.py:130-150 | the environment afterwards is the old one with every listed name's variables set in list order, and the failed names are exactly those whose lookup failed |
| JsSecrets.SecretsManager.constructor | scripts/aws-secrets-manager.js:8-12 | a new manager starts with an empty cache and has sent no request |
| JsSecrets.SecretsManager.GetSecret | scripts/aws-secrets-manager.js:20-57 | a cached entry whose expiry is after now is returned without a request; otherwise one request is sent, the result (an empty SecretString raises, a non-object ignores the key, a missing field is undefined) is cached for 3600000 ms on success |
| JsSecrets.SecretsManager.ClearCache | scripts/aws-secrets-manager.js:62-64 | the cache is emptied and the request log is unchanged |
| JsSecrets.LookupTwiceWithinTtl | scripts/aws-secrets-manager.js:21-52 | two lookups within the TTL return the same value, with one request on success and two on failure |
| JsSecrets.GetMcpSecret | scripts/aws-secrets-manager.js:95-116 | the lookup returns exactly `McpSecret`, whose variant preference, unknown-name error and password extraction are the three lemmas below |
| JsSecrets.BeepmediaVariantPreferred | scripts/aws-secrets-manager.js:97-99 | with the account flag set and a truthy `_BEEPMEDIA` path, the result is exactly that variant's lookup |
| JsSecrets.PlainNameOtherwise | scripts/aws-secrets-manager.js:97-115 | otherwise a falsy or missing path throws "Unknown MCP secret: name", and a path without "credentials" returns the fetched whole secret |
| JsSecrets.CredentialsYieldPassword | scripts/aws-secrets-manager.js:107-111 | on a "credentials" path an object with a truthy password yields the password |
| JsSecrets.ArraySecretIndexed | scripts/aws-secrets-manager.js:44 | a secret that parses to an array, asked for a canonical decimal index, yields that element, and asked for "length" yields its length |
| JsSecrets.FetchAgreesOnObjectsAndScalars | scripts/aws-secrets-manager.js:33-44 | for non-empty secrets that are not null or arrays, the JavaScript fetch returns the same value as the Python one |
| JsSecrets.FetchDiffers | scripts/aws-secrets-manager.js:33-44 | an empty SecretString raises in JavaScript but yields "" in Python, and a `null` secret asked for a key raises in JavaScript but yields null in Python |
| JsSecrets.FalsyPasswordDiffers | scripts/aws-secrets-manager.js:107-112 | a credentials object whose password is falsy is returned whole in JavaScript while Python returns the password |
| JsSecrets.EmptyVariantFallsBack | scripts/aws-secrets-manager.js:97-104 | an empty `_BEEPMEDIA` path makes JavaScript fall back to the plain name while Python raises "Unknown MCP secret" |
| InjectSecrets.UseBeepmedia | scripts/inject-secrets.py:32 | an unset `USE_BEEPMEDIA_ACCOUNT` means true, and any value whose length is not 4 means false |
| InjectSecrets.UseBeepmediaSpellings | scripts/inject-secrets.py:32 | "TRUE" and "True" select the account; "1", "yes" and "false" do not |
| InjectSecrets.CollectSecretNames | scripts/inject-secrets.py:39-41 | the collected set holds exactly the names some server requires |
| InjectSecrets.Stored | scripts/inject-secrets.py:51-54 | what is stored is a dict or a string, and a dict or string value is stored unchanged |
| InjectSecrets.FetchSecrets | scripts/inject-secrets.py:44-60 | the fetched data has distinct keys, holds exactly the names whose lookup succeeds, stores each as its dict or `str` value, and every other name is reported failed |
| InjectSecrets.ServerSecrets | scripts/inject-secrets.py:64-67 | a server's file holds exactly its required names that were fetched, each with the fetched value |
| InjectSecrets.ServerSecretsOf | scripts/inject-secrets.py:64-67 | the loop builds exactly `ServerSecrets` |
| InjectSecrets.WrittenKeys | scripts/inject-secrets.py:63-74 | after the writes the files are the old ones plus one per server path |
| InjectSecrets.WrittenKeeps | scripts/inject-secrets.py:63-74 | a file at a path no server writes is unchanged |
| InjectSecrets.WrittenLast | scripts/inject-secrets.py:63-74 | a server path holds the file of the last server written to it, with mode 0600 |
| InjectSecrets.WrittenAll | scripts/inject-secrets.py:63-74 | the three facts above for the whole server list |
| InjectSecrets.WriteServerFiles | scripts/inject-secrets.py:63-74 | the loop leaves exactly the files `Written` describes |
| InjectSecrets.ServerPathInjective | scripts/inject-secrets.py:70 | two relative server names share a secrets file only when they are the same name |
| InjectSecrets.TablePathsDistinct | scripts/inject-secrets.py:13-28 | the fourteen servers write fourteen different files, none of them `all-secrets.json` |
| InjectSecrets.OneWriterEach | scripts/inject-secrets.py:63-80 | when no two servers share a path and none is the combined file's, each server's path ends up holding exactly that server's file, the combined file holds the data, and other files are untouched |
| InjectSecrets.InjectAll | scripts/inject-secrets.py:30-82 | the data holds exactly the required names whose lookup succeeds; each server path holds exactly `ServerSecrets` of its required names with mode 0600; `all-secrets.json` holds all the data with mode 0600; every other file is unchanged; a name is reported failed exactly when it is required and its lookup fails |
| InjectSecrets.NothingFetchedEmptyFile | scripts/inject-secrets.py:64-72 | a server none of whose secrets was fetched still gets a file, holding `{}` |
| InjectSecrets.UnmappedFails | scripts/inject-secrets.py:48 | a required name with no mapping, such as `CLOUDFLARE_API_TOKEN`, fails with "Unknown MCP secret" |
| InjectSecrets.GdriveAlwaysEmpty | scripts/inject-secrets.py:18 | `GOOGLE_SERVICE_ACCOUNT` has no mapping, so the gdrive file is always empty |
| BuildAndTestAll.DockerfilePath | scripts/build-and-test-all.py:170-178 | a server whose `dockerfile_location` is "dockerfiles" is built from the shared dockerfiles directory, any other from its repository path |
| BuildAndTestAll.Template | scripts/build-and-test-all.py:186-225 | types "python", "node" and "go" get their own template, and every other type gets the Ubuntu one |
| BuildAndTestAll.ServerNamesDistinct | scripts/build-and-test-all.py:22-146 | the nineteen configured servers have different names |
| BuildAndTestAll.StderrFallback | scripts/build-and-test-all.py:296-299 | stderr mentioning "error" in any case passes the protocol check, whatever stdout holds |
| BuildAndTestAll.CheckProtocol | scripts/build-and-test-all.py:283-302 | the check passes exactly when stdout holds a response line before any unparsable one, or stderr mentions an error |
| BuildAndTestAll.PutKeepsConsistent | scripts/build-and-test-all.py:320-325 | recording a consistent row keeps every recorded row consistent (no protocol pass without a build, "Passed" only when both passed) |
| BuildAndTestAll.Outcome | scripts/build-and-test-all.py:304-325 | a recorded row is consistent, has no error and has the server's type; build is the build command's success, and the status is "Passed" exactly when the build succeeds and the protocol check passes |
| BuildAndTestAll.ErrorRow | scripts/build-and-test-all.py:337-345 | an exception leaves a consistent row with status "Error" and its message |
| BuildAndTestAll.FirstUnknown | scripts/build-and-test-all.py:363-375 | there is no passed row of an uncounted type exactly when the lookup finds none |
| BuildAndTestAll.FirstUnknownPrefix | scripts/build-and-test-all.py:365-375 | once a prefix of the rows has a passed row of an uncounted type, the whole report fails on that row |
| ResponseProbe.CountPassed | scripts/build-and-test-all.py:362-374 | the number of passed rows is at most the number of rows (both harnesses count with it) |
| BuildAndTestAll.PassedByType | scripts/build-and-test-all.py:362-380 | without an uncounted type, the total passed equals the Python plus Node.js plus Go counts |
| BuildAndTestAll.ReportOf | scripts/build-and-test-all.py:350-389 | the report exists exactly when no passed row has an uncounted type, and then totals every row and counts the passed ones |
| BuildAndTestAll.Tester.constructor | scripts/build-and-test-all.py:149-151 | a new tester has no results and has run no command |
| BuildAndTestAll.Tester.EnsureDockerfile | scripts/build-and-test-all.py:170-184 | an existing Dockerfile is left alone; a missing one gets the type's template unless writing it fails, and nothing else changes |
| BuildAndTestAll.Tester.TestServer | scripts/build-and-test-all.py:231-325 | the build command runs, the size query and the protocol run follow only a successful build, and the server's row is `Outcome`; a failed Dockerfile write raises before any command |
| BuildAndTestAll.Tester.RunOne | scripts/build-and-test-all.py:335-345 | the new rows, files and command log are one `RunStep`: the server's outcome, or an error row with the exception's message when its Dockerfile write fails, and all rows stay consistent |
| BuildAndTestAll.RunStepRows | scripts/build-and-test-all.py:334-345 | one step records the server's outcome, or its error row when the Dockerfile write fails, under its name, and leaves every other server's row as it was |
| BuildAndTestAll.RunFoldFiles | scripts/build-and-test-all.py:170-184 | over the whole run, a Dockerfile present at the start stays present, and a missing one whose write fails never appears |
| BuildAndTestAll.RunFoldRows | scripts/build-and-test-all.py:327-345 | with distinct server names, each server's row is `ExpectedRow`: the error row exactly when its Dockerfile was missing at the start and writing it fails, else its outcome |
| BuildAndTestAll.RowsOfDistinct | scripts/build-and-test-all.py:327-345 | the same per-server rows, stated for any server list whose names are distinct |
| BuildAndTestAll.Tester.RunAllTests | scripts/build-and-test-all.py:327-348 | the new state is the left fold of `RunStep` over the servers; rows stay consistent; every server gets a row, in order after the old ones; with distinct names each server's row is `ExpectedRow`; the report is `ReportOf` the rows |
| BuildAndTestAll.Tester.GenerateReport | scripts/build-and-test-all.py:350-389 | the report is `ReportOf` the recorded rows |
| TestAllServers.DockerfilePath | scripts/test-all-mcp-servers.py:100-107 | a Dockerfile name starting with `../` is taken under the base path with every `../` removed, any other under the server's repository |
| TestAllServers.RemovalNotIdempotent | scripts/test-all-mcp-servers.py:104-105 | removing `../` in one pass can leave a path that still starts with `../` ("....//" becomes "../") |
| TestAllServers.NoStderrFallback | scripts/test-all-mcp-servers.py:140-154 | an error on stderr never passes the check: an empty stdout fails, and a non-zero exit fails whatever stdout holds |
| TestAllServers.CheckStdio | scripts/test-all-mcp-servers.py:127-154 | the check passes exactly on a zero exit with non-empty stdout holding a response line before any unparsable one |
| TestAllServers.Outcome | scripts/test-all-mcp-servers.py:156-180 | the build passes exactly when the Dockerfile exists and the build command succeeds; "Build Failed" exactly when it does not, "Passed" exactly when build and stdio test pass, and no stdio pass without a build |
| TestAllServers.ServerNamesDistinct | scripts/test-all-mcp-servers.py:15-76 | the ten configured servers have different names |
| TestAllServers.AllPassedIff | scripts/test-all-mcp-servers.py:201-213 | the count reaches the number of rows exactly when every row passed |
| TestAllServers.Tester.constructor | scripts/test-all-mcp-servers.py:79-81 | a new tester has no results and has run no command |
| TestAllServers.Tester.BuildImage | scripts/test-all-mcp-servers.py:96-125 | a missing Dockerfile fails without running docker; otherwise the build command runs and its success is the result |
| TestAllServers.Tester.TestServer | scripts/test-all-mcp-servers.py:156-180 | the server's row is `Outcome`, and the command log grows by exactly the build and, after a successful build, the stdio run |
| TestAllServers.Tester.RunAllTests | scripts/test-all-mcp-servers.py:182-191 | the rows are the old ones with each server's `Outcome` put in order, the command log is the fold of each server's commands, every server gets a row, with distinct names each server's row is its `Outcome`, and the summary counts the passed rows over all rows |
| TestAllServers.RowsAfterRun | scripts/test-all-mcp-servers.py:187-188 | putting each server's outcome adds exactly the servers' names, and with distinct names each server's row is its outcome |
| TestAllServers.Tester.PrintSummary | scripts/test-all-mcp-servers.py:193-213 | the printed totals are the passed rows and all rows |
| ResponseProbe.StepOf | scripts/build-and-test-all.py:286-290 | a line not starting with `{` after stripping is skipped, one that fails to parse raises, and a hit is a parsed `{` line |
| ResponseProbe.ResponseObjectHits | scripts/build-and-test-all.py:288-290 | a parsed object is a hit exactly when it has a `result` or an `error` member |
| ResponseProbe.ScanFoundAt | scripts/build-and-test-all.py:285-294 | a hit with only skipped lines before it makes the scan succeed |
| ResponseProbe.ScanFoundWitness | scripts/build-and-test-all.py:285-294 | a successful scan has a hit with only skipped lines before it |
| ResponseProbe.ScanFoundIff | scripts/test-all-mcp-servers.py:141-151 | the scan succeeds exactly when some line hits and every earlier line is skipped |
| ResponseProbe.RaiseHidesLaterHit | scripts/build-and-test-all.py:285-294 | a line that fails to parse ends the scan, hiding a response on a later line |
| ResponseProbe.StdoutLines | scripts/build-and-test-all.py:286 | splitting stripped stdout on line feeds always yields at least one line |
| ResponseProbe.ScanLines | scripts/build-and-test-all.py:287-292 | the loop with its early return succeeds exactly when `Scan` finds a response |
| CloudflareDns.Headers | repos/update_cloudflare_dns.py:27-44 | a truthy e-mail selects the `X-Auth-Key`/`X-Auth-Email` pair and no `Authorization`; otherwise `Authorization: Bearer <token>` alone; both carry the JSON content type |
| CloudflareDns.BaseDomainLabels | repos/update_cloudflare_dns.py:51-52 | the base domain is the last two dot-labels (all of them when fewer), a dotless name is its own base, and taking the base twice changes nothing |
| CloudflareDns.ThreeLabels | repos/update_cloudflare_dns.py:51-52 | a three-label name loses exactly its first label |
| CloudflareDns.SubdomainBase | repos/update_cloudflare_dns.py:51-52 | `main` passes the literal `beepmedia.com` to the zone lookup (line 227); the base-domain rule applied to the record name `mcp.beepmedia.com` gives that same zone |
| CloudflareDns.FirstResult | repos/update_cloudflare_dns.py:60-66 | a non-200 answer gives no result, and a result comes only from a 200 answer with a truthy `success` |
| CloudflareDns.UpdateRecord | repos/update_cloudflare_dns.py:83-107 | at most one PUT, made only when a record exists, carrying the manager's headers and `DNS_RECORD` (an unproxied A record to 44.206.106.173) as its body, and "updated" only when that PUT answers 200 with a truthy `success` |
| CloudflareDns.MissingRecordNotCreated | repos/update_cloudflare_dns.py:105-107 | with no existing record nothing is sent and nothing is updated: the record is never created |
| CloudflareDns.CandidateValue | repos/update_cloudflare_dns.py:139-153 | a known name yields a value exactly when the store answers it with a SecretString |
| CloudflareDns.FirstSome | repos/update_cloudflare_dns.py:139-153 | no value is found exactly when every name yields none, and a found value is one of them |
| CloudflareDns.FirstSomeIsEarliest | repos/update_cloudflare_dns.py:139-149 | the value found is that of the earliest name that yields one |
| CloudflareDns.TryKnownNames | repos/update_cloudflare_dns.py:139-153 | the loop with its early return finds exactly `FirstSome` of the candidates |
| CloudflareDns.ListedValue | repos/update_cloudflare_dns.py:167-186 | a listed secret is accepted only when its name mentions "cloudflare" or "cf": as JSON holding `api_token`, `api_key` or `token`, or as non-JSON text not starting with "-----", wrapped as a token |
| CloudflareDns.PemRejected | repos/update_cloudflare_dns.py:181-184 | non-JSON text starting with "-----" is never taken as a token |
| CloudflareDns.Listing | repos/update_cloudflare_dns.py:158-164 | the listing starts with the first page's names, in order |
| CloudflareDns.ListingStep | repos/update_cloudflare_dns.py:162-164 | a page with a continuation token is followed by the listing of the later pages |
| CloudflareDns.ListSecrets | repos/update_cloudflare_dns.py:158-164 | the pagination loop gathers exactly `Listing` of the pages |
| CloudflareDns.KnownNameFirst | repos/update_cloudflare_dns.py:139-191 | a known name that yields a value wins over every listed secret |
| CloudflareDns.GetCloudflareCredentials | repos/update_cloudflare_dns.py:109-191 | the search returns exactly `CredentialsOf`: the known names first, then the listed secrets |
| CloudflareDns.SelectCredentials | repos/update_cloudflare_dns.py:207-219 | missing or falsy credentials stop with "no credentials"; the token is the first truthy of `api_token`, `api_key`, `token`, the e-mail `email` or else `api_email`; "no token" exactly when all three are falsy |
| CloudflareDns.UpdateDns | repos/update_cloudflare_dns.py:224-241 | the zone lookup comes first, at most three requests are made, and success needs the third to be a PUT of `DNS_RECORD` |
| CloudflareDns.RecordPhase | repos/update_cloudflare_dns.py:83-107 | the record lookup comes first, at most two requests are made, and success needs the second to be a PUT of `DNS_RECORD` |
| CloudflareDns.RecordPhaseAuthenticated | repos/update_cloudflare_dns.py:70-95 | both requests of the record phase carry the manager's headers, and only the PUT has a body |
| CloudflareDns.UpdateDnsAuthenticated | repos/update_cloudflare_dns.py:54-95 | every request after the credentials are chosen carries the same headers, and only the PUT has a body, `DNS_RECORD` |
| CloudflareDns.RequestsAuthenticated | repos/update_cloudflare_dns.py:213-237 | `main` makes a request only once credentials are selected, and each one carries the headers built from the selected token and e-mail |
| CloudflareDns.NoTokenNoRequest | repos/update_cloudflare_dns.py:199-219 | without AWS credentials, usable Cloudflare credentials or a token, no Cloudflare request is made |
| SecurityGroup.ProtocolText | repos/update_security_group.py:81-83 | protocol "-1" is shown as "All", any other as itself |
| SecurityGroup.NatTextDigits | repos/update_security_group.py:85-91 | a port number's text is non-empty and all digits |
| SecurityGroup.DashIffRange | repos/update_security_group.py:85-91 | for absent or non-negative ports, the port column holds a dash exactly when the two ends differ |
| SecurityGroup.SourcesOf | repos/update_security_group.py:94-100 | the sources are the IPv4 blocks, then the IPv6 blocks, then `sg-` plus each group id, in order and nothing else |
| SecurityGroup.CollectSources | repos/update_security_group.py:94-100 | the three `extend` steps build exactly `SourcesOf` |
| SecurityGroup.GroupPrefixDoubled | repos/update_security_group.py:100 | a group id that already starts with `sg-` is shown as `sg-sg-…` |
| SecurityGroup.NoSourcesIff | repos/update_security_group.py:102 | "N/A" is shown exactly when the rule has no IPv4, IPv6 or group source |
| SecurityGroup.DescriptionOf | repos/update_security_group.py:105-107 | the description is the first IPv4 block's, or empty when there is none |
| SecurityGroup.Rows | repos/update_security_group.py:80-109 | one row per inbound rule, in order |
| SecurityGroup.RemovePortRange | repos/update_security_group.py:46-69 | the TCP range from 0.0.0.0/0 is revoked; success exactly when the revoke succeeds, "not found" exactly on a ClientError mentioning `InvalidPermission.NotFound`, and any other exception propagates |
| SecurityGroup.GroupOf | repos/update_security_group.py:24-44 | a group is found exactly when the answer lists at least one, and it is the first; a `ClientError` gives none, and any other exception propagates with its message |
| SecurityGroup.FindGroup | repos/update_security_group.py:118-150 | a group in us-east-1 is used there; an empty answer or `ClientError` there moves on to the fallback regions; any other exception ends the script; a group found is the one its region answered |
| SecurityGroup.FirstRegion | repos/update_security_group.py:121-149 | the search stops at the first region not answering "no group": with its group, or failing with its exception; it finds nothing exactly when every region answers an empty list or a `ClientError` |
| SecurityGroup.FirstAnswered | repos/update_security_group.py:121-149 | the index of the first region whose answer is a group or an exception other than `ClientError`; all earlier regions answered "no group" |
| SecurityGroup.NotFoundIff | repos/update_security_group.py:113-150 | no group is found exactly when all four regions answer an empty list or a `ClientError` |
| SecurityGroup.ClientErrorMovesOn | repos/update_security_group.py:42-44 | a `ClientError` in us-east-1 is not fatal: the search carries on in the fallback regions |
| SecurityGroup.LocateGroup | repos/update_security_group.py:118-150 | the region loop with its `break` and `except ClientError: continue` finds exactly `FindGroup` |
| SecurityGroup.Unseen | repos/update_security_group.py:179-189 | the ports left are exactly the required ports no rule starts at |
| SecurityGroup.RemoveUnseen | repos/update_security_group.py:182-184 | deleting a seen port from the ports left equals leaving it out of the required ones |
| SecurityGroup.DeleteSeen | repos/update_security_group.py:180-184 | the loop deleting each rule's stringified `FromPort` leaves exactly `Unseen` |
| SecurityGroup.CheckRequiredPorts | repos/update_security_group.py:178-189 | the ports reported missing are exactly SSH, HTTP and HTTPS ports at which no rule starts |
| SecurityGroup.RemoveAbsent | repos/update_security_group.py:182-184 | deleting a port that is not listed leaves the table unchanged |
| SecurityGroup.WideRangeNotCounted | repos/update_security_group.py:181 | only `FromPort` counts: a rule opening every TCP port still leaves all three required ports reported |
| ElasticIps.UnassociatedIffNotAssociated | check_elastic_ips.py:52-53 | an address is unassociated exactly when it is not associated |
| ElasticIps.Associated | check_elastic_ips.py:52 | the associated list holds only associated addresses taken from the region's list |
| ElasticIps.Unassociated | check_elastic_ips.py:53 | the unassociated list holds only unassociated addresses taken from the region's list |
| ElasticIps.Partition | check_elastic_ips.py:52-60 | the two lists split the addresses: together they are a permutation of them, so their sizes add up |
| ElasticIps.AssociatedAppend | check_elastic_ips.py:52-53 | both filters keep the addresses' order across a concatenation |
| ElasticIps.Totals | check_elastic_ips.py:30-60 | the total allocated is the associated total plus the unassociated total |
| ElasticIps.SilentRegion | check_elastic_ips.py:43-84 | a region that raised or has no addresses leaves every total as it was |
| ElasticIps.AuditRegions | check_elastic_ips.py:34-84 | the region loop computes exactly `Totals`, and allocated equals associated plus unassociated |
| BridgeCommon.CredentialFields | mcp-bridge-fixed/server-v2.js:22 | the decoded credentials split into at least one field, none holding a colon |
| BridgeCommon.BasicAuth | mcp-bridge-fixed/server-v2.js:15-27 | a missing header or one without the `Basic ` prefix is refused with "Authentication required" and nothing else is; every other refusal reads "Invalid credentials" |
| BridgeCommon.TokenOfHeader | mcp-bridge-fixed/server-v2.js:22 | the token decoded from `Basic <token>` is the token up to its first space |
| BridgeCommon.FirstFieldIs | mcp-bridge-fixed/server-v2.js:22-23 | the first colon-field equals a colon-free name exactly when the text is that name or starts with it followed by a colon |
| BridgeCommon.RfcUserPass | mcp-bridge-fixed/server-v2.js:22 | the section 2 of RFC 7617 reading: the user-id ends at the first colon and the password is all the rest; there is none exactly when the text has no colon |
| BridgeCommon.BasicOfToken | mcp-bridge-fixed/server-v2.js:15-27 | a `Basic` request passes exactly when the first field is "beepmedia" and the second field equals `MCP_API_KEY` |
| BridgeCommon.FieldsAgainstRfc | mcp-bridge-fixed/server-v2.js:22-23 | that field test holds exactly when the RFC 7617 user is "beepmedia" and the RFC password is the key or starts with the key and a colon |
| BridgeCommon.BasicAuthAgainstRfc | mcp-bridge-fixed/server-v2.js:15-27 | with a colon-free key, a request passes exactly when, read as RFC 7617 says, its user is "beepmedia" and its password is the key or the key followed by a colon and anything |
| BridgeCommon.KeyWithColonNeverPasses | mcp-bridge-fixed/server-v2.js:22-23 | a key holding a colon is never matched |
| BridgeCommon.UnsetKeyAcceptsBareUser | clean-mcp-bridge/server.js:21-22 | with `MCP_API_KEY` unset, a request passes exactly when its credentials decode to "beepmedia" with no colon |
| BridgeCommon.DecodeFrameLines | mcp-bridge-fixed/server-v2.js:153-155 | interpreting those lines as section 9.2.6 of the HTML Living Standard yields one event per frame with the frame's payload |
| BridgeCommon.SseRoundTrip | mcp-bridge-fixed/server-v2.js:153-155 | a client reads back exactly the payloads the bridge framed, in order, when no payload holds a line feed |
| BridgeCommon.ErrorReply | mcp-bridge-fixed/server-v2.js:188 | an error reply has the given status, no session header and the body `{error: message}` |
| BridgeCommon.AuthReply | mcp-bridge-fixed/server-v2.js:15-27 | a refusal is a 401 error reply carrying the refusal's message |
| BridgeCommon.FramesOf | mcp-bridge-fixed/server-v2.js:153-155 | one frame per queued response |
| BridgeCommon.FramesOfAppend | mcp-bridge-fixed/server-v2.js:153-155 | framing a concatenation concatenates the frames |
| BridgeCommon.FramesOfAt | mcp-bridge-fixed/server-v2.js:154 | frame i is `data: <JSON of response i>` followed by a blank line |
| FixedBridge.ConfigOf | mcp-bridge-fixed/server-v2.js:31-60 | exactly "pdf-reader", "notion" and "aws" are known server types |
| FixedBridge.ChildEnv | mcp-bridge-fixed/server-v2.js:66 | the child inherits every variable of the bridge's environment |
| FixedBridge.AwsRegionDefault | mcp-bridge-fixed/server-v2.js:48 | the aws child always has `AWS_REGION`: the bridge's non-empty value, else "us-east-1" |
| FixedBridge.QueuedAppend | mcp-bridge-fixed/server-v2.js:86-102 | lines arriving in two batches queue what they queue together, in arrival order |
| FixedBridge.NonNull | mcp-bridge-fixed/server-v2.js:97-99 | a response reaches the event stream exactly when it is queued and is not `null` |
| FixedBridge.AnyInitializesAppend | mcp-bridge-fixed/server-v2.js:93-95 | a batch initialises the session exactly when one of its parts does |
| FixedBridge.CompleteLines | mcp-bridge-fixed/server-v2.js:83-84 | no complete line holds a line feed |
| FixedBridge.Remainder | mcp-bridge-fixed/server-v2.js:83-84 | the buffer left holds no line feed, and the complete lines joined by line feeds, then the buffer, give back the text |
| FixedBridge.LinesDetermined | mcp-bridge-fixed/server-v2.js:82-84 | the lines and the buffer are determined by the text received, however it was cut into chunks |
| FixedBridge.HandleLines | mcp-bridge-fixed/server-v2.js:86-104 | the loop queues exactly `Queued` of the lines, sets `initialized` when one of them initialises, and streams the non-null ones when a stream is attached |
| FixedBridge.LinesAfterChunk | mcp-bridge-fixed/server-v2.js:82-84 | a chunk keeps the buffer invariant: lines plus buffer equal everything received |
| FixedBridge.QueueAfterLines | mcp-bridge-fixed/server-v2.js:86-95 | queuing a batch keeps the queue a FIFO over everything parsed, and `initialized` is never reset |
| FixedBridge.Session.constructor | mcp-bridge-fixed/server-v2.js:62-78 | a new session spawns the configured command with the merged environment, with an empty buffer and queue, not initialised and not streaming |
| FixedBridge.Session.SplitOff | mcp-bridge-fixed/server-v2.js:82-84 | the complete lines of buffer + chunk are split off, and the rest stays buffered |
| FixedBridge.Session.Enqueue | mcp-bridge-fixed/server-v2.js:86-104 | the lines' responses join the queue in order, `initialized` is updated, the non-null ones are streamed, and the queue invariant holds |
| FixedBridge.Session.Deliver | mcp-bridge-fixed/server-v2.js:81-105 | one stdout chunk appends its complete lines' responses to the queue, leaves the incomplete tail buffered, and keeps both invariants |
| FixedBridge.Session.WriteStdin | mcp-bridge-fixed/server-v2.js:137 | the line is written to the child's stdin and nothing else changes |
| FixedBridge.Session.OpenStream | mcp-bridge-fixed/server-v2.js:150-156 | attaching a stream writes every queued response in order and empties the queue |
| FixedBridge.Session.TakeOne | mcp-bridge-fixed/server-v2.js:179-181 | the oldest queued response is removed and returned, or nothing when the queue is empty |
| FixedBridge.Session.DrainAll | mcp-bridge-fixed/server-v2.js:202-207 | every queued response is removed and returned, oldest first |
| FixedBridge.Session.Respond | mcp-bridge-fixed/server-v2.js:136-185 | the body goes to stdin; an event stream gets every queued response, otherwise the oldest is returned with 200 or, with none queued, 202 `{sessionId}` |
| FixedBridge.Session.Close | mcp-bridge-fixed/server-v2.js:163-169 | the stream is detached and the child killed; the queue is kept |
| FixedBridge.Bridge.constructor | mcp-bridge-fixed/server-v2.js:12 | the bridge starts with no session |
| FixedBridge.Bridge.Post | mcp-bridge-fixed/server-v2.js:123-190 | after the auth gate, a header naming a live session reuses it whatever the server type; otherwise an unknown type gives 500 and a known one creates a session under a new id; then the session responds |
| FixedBridge.Bridge.Poll | mcp-bridge-fixed/server-v2.js:193-208 | after the auth gate, a missing or unknown session gives 400; otherwise every queued response is returned in order and the queue is emptied |
| FixedBridge.Bridge.OnStdout | mcp-bridge-fixed/server-v2.js:81-105 | a chunk for a live session queues its complete lines' responses and buffers the rest |
| FixedBridge.Bridge.ProcessExit | mcp-bridge-fixed/server-v2.js:113-116 | the child's exit removes its session and no other |
| FixedBridge.Bridge.ClientClosed | mcp-bridge-fixed/server-v2.js:163-171 | the stream's close kills the child and removes the session |
| FixedBridge.Bridge.Sweep | mcp-bridge-fixed/server-v2.js:232-238 | exactly the sessions whose child was killed are removed |
| FixedBridge.OneLine | mcp-bridge-fixed/server-v2.js:82-84 | a chunk holding one whole line yields that line and leaves the buffer empty |
| FixedBridge.StreamedResponsesStayQueued | mcp-bridge-fixed/server-v2.js:90-99 | with a stream attached, a new response is both streamed and left queued, so a later poll returns it again |
| CleanBridge.EnvFlags | clean-mcp-bridge/server.js:72-76 | two words per environment entry |
| CleanBridge.EnvFlagsAt | clean-mcp-bridge/server.js:73-74 | entry i becomes `-e` followed by `key=value`, an unset value written "undefined" |
| CleanBridge.DockerArgv | clean-mcp-bridge/server.js:65-88 | run mode gives `run --rm -i`, the env flags, image, command and array args; any other mode gives `exec -i container command` and array args |
| CleanBridge.ConfigOf | clean-mcp-bridge/server.js:30-62 | exactly "pdf-reader", "notion" and "aws" are known, all in run mode |
| CleanBridge.NotionArgvWithoutKey | clean-mcp-bridge/server.js:37-78 | with `NOTION_API_KEY` unset the notion container gets `NOTION_API_KEY=undefined` |
| CleanBridge.SplitLineLost | clean-mcp-bridge/server.js:100-113 | a JSON line split across two chunks is never queued, while the newer bridge's buffer queues it |
| CleanBridge.Session.constructor | clean-mcp-bridge/server.js:90-98 | a new session has the built argv, an empty queue and no stream |
| CleanBridge.Session.Deliver | clean-mcp-bridge/server.js:100-113 | each chunk's own non-blank lines that parse are queued in order, and streamed when a stream is attached |
| CleanBridge.Session.WriteStdin | clean-mcp-bridge/server.js:138 | the line is written to the container's stdin and nothing else changes |
| CleanBridge.Session.OpenStream | clean-mcp-bridge/server.js:150-156 | attaching a stream writes every queued response in order and empties the queue |
| CleanBridge.Session.Exchange | clean-mcp-bridge/server.js:137-170 | the body goes to stdin; an event stream gets every queued response, otherwise 202 with no body and the queue untouched |
| CleanBridge.Session.Detach | clean-mcp-bridge/server.js:163-166 | only the stream is detached; the queue is kept |
| CleanBridge.Bridge.constructor | clean-mcp-bridge/server.js:11 | the bridge starts with no session |
| CleanBridge.Bridge.Post | clean-mcp-bridge/server.js:124-174 | after the auth gate, a named live session is reused; otherwise an unknown type gives 500 and a known one creates a session with its docker argv; then the exchange |
| CleanBridge.Bridge.GetStream | clean-mcp-bridge/server.js:177-211 | after the auth gate, a missing or unknown session gives 400; otherwise every queued response is streamed in order and the queue is emptied |
| CleanBridge.Bridge.OnStdout | clean-mcp-bridge/server.js:100-113 | a chunk queues exactly its own parsed lines |
| CleanBridge.Bridge.ClientClosed | clean-mcp-bridge/server.js:204-207 | the stream is detached, the session and its queue stay |

## Left out

- AWS (boto3), Cloudflare (requests), Docker (subprocess) and `child_process.spawn` are not modelled as behaviour. Each is an oracle answer given as a parameter.
- JSON parsing and serialisation, base64 decoding and uuid generation are uninterpreted functions. New session ids are parameters that the caller guarantees are unused.
- `datetime.now` and `Date.now` are the integer `now`. Time zones and float seconds are not modelled.
- The `lru_cache` on `get_mcp_secret` is not modelled. A repeated call within one process could return a memoised value instead of a fresh lookup; the model always looks up.
- The module-level singleton managers and the `get_secrets_manager` accessor are not modelled. They only construct a manager.
- JSON numbers are integers. Python `str()` of a non-string secret is modelled through `Json`, but float formatting and the `repr` escaping of nested strings are approximated.
- `str.upper` and `str.lower` are modelled on ASCII letters only. Unicode case mapping is not modelled.
- Express routing, CORS and the SSE heartbeat are not modelled. These are event-loop concurrency, and the handlers are modelled as sequential methods.
- The 100 ms wait before a plain POST reply is not modelled, nor the SIGTERM handler or the 60 s timer driving the sweep. The sweep is the explicit method `FixedBridge.Bridge.Sweep`.
- The `/health` endpoints of both bridges are not modelled. They are read-only reports of process state (uptime, `killed` flags).
- Stdout chunks are modelled as already-decoded strings. A UTF-8 character split across two chunks is not modelled.
- The SSE round trip assumes line-feed line endings and payloads without line feeds. `JSON.stringify` never emits a raw line feed.
- Stderr logging, console output and the markdown report are not modelled, nor column padding or emoji.
- The duration in `scripts/build-and-test-all.py` and the cost estimate in `check_elastic_ips.py` are floating point and are not modelled.
- Report rows are not sorted by server name.
- BuildAndTestAll.ReportOf: for a passed row whose type has no counter, it names the first such row in insertion order, where the script raises on the first in sorted order. Either way no report is written.
- The report file names (timestamps) are not modelled.
- `pathlib` normalisation is not modelled. Paths are joined textually with `/`.
- `Path.exists` is membership in a set or map of paths.
- The process-level credential checks at the top of the AWS scripts, which exit on missing `BEEPMEDIA_AWS_*` variables, are modelled only for the Cloudflare updater's `main`.
- CloudflareDns.GetCloudflareCredentials: requires that the pagination of `list_secrets` ends (`ListingEnds`). A store that returns a continuation token forever would make the script loop forever.
- CloudflareDns.SelectCredentials: returns a non-string token as it is. `Main` builds the headers from its `str()`; in the key-and-e-mail branch the script puts the raw value into the header, which `requests` would reject.
- The security-group script's listing of all groups, when no group is found, only prints and is not modelled.
- The security group's region fallback creates a new client per region. The per-region answers are a function of the region name.
- InjectSecrets.FetchSecrets: visits the names in an unspecified order, as the script iterates a `set`. Its contract holds for every order and does not fix the order of the combined file's keys.
- CleanBridge.DockerArgv: image, container and command are strings. An `undefined` one, which `spawn` would receive as is, is not modelled. No configured server uses the `exec` mode.
- Json.JsGet: property reads look up own members only. Names inherited from `Object.prototype` (`"constructor"`, `"toString"`, `"__proto__"` …) are not modelled. The same holds for JsSecrets.SecretsManager.GetSecret (`secretValue[key]`), JsSecrets.McpSecret (`MCP_SECRET_MAPPINGS[...]`), and the `MCP_SERVERS[serverType]` lookups in FixedBridge.ConfigOf and CleanBridge.ConfigOf, where such a name would find an inherited value instead of `undefined`.
- One `Parser` stands for both Python's `json.loads` and JavaScript's `JSON.parse`. They differ on `NaN`, `Infinity` and `-Infinity`, which Python accepts and JavaScript rejects, and on duplicate keys and large numbers; the lemmas comparing the two secrets wrappers assume they agree.
- The test and driver clients (`test-*.js`, `notion-get-users.js`, `mcp-http-bridge/test-local.js`) are not part of this model. Neither is `scripts/secure-notion-wrapper.js`.
