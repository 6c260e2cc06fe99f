# EC2 → Route 53 record reconciliation, modelled in Dafny

This project models the Lambda handler of `ec2-register-route53`. The handler reacts to EC2
instance state-change events and keeps Route 53 records in step with the instance:

- **running**: the instance's addresses are registered as record sets in the hosted zone named by
  its `HostedZone` tag. A private zone gets an `A` set from the private IPv4 addresses. A public
  zone gets an `A` set from the public IPv4 addresses and an `AAAA` set from the IPv6 addresses.
  When the `HostName` or `Name` tag gives a label, a `CNAME` from that label points at the
  instance's canonical name `<instance-id>.<zone name>`.
- **stopped** / **terminated**: every listed record set that carries the canonical name, as its
  own name or as one of its values, is deleted.

The repository holds the handler twice. `app/index.ts` is the AWS SDK v3 version; `src/index.ts` is
an older SDK v2 snapshot of the same logic. The two differ in one point: the SDK v2 `unregister`
reads `ResourceRecordSets` without the `|| []` default. Tag lookup, the register planner and the
record-set predicates behave the same in both files, so the model defines them once. (The SDK v3
`getTagValue` ends with an explicit `return undefined;`, while the SDK v2 one runs off the end of
the function; both yield `undefined`.) Each
handler has its own driver method.

Modules, one per component:

- `Wrappers` (`wrappers.dfy`): `Option` for `undefined`, `Result` for a thrown error.
- `Records` (`records.dfy`): tags, network interfaces and address entries, instances, hosted
  zones, record sets and changes. Also the constants (tag keys, TTL 300), JavaScript truthiness of
  an optional string, and the canonical name.
- `Tags` (`tags.dfy`): `getTagValue` as a method with a search loop, proved against the function
  `TagValue`.
- `RegisterPlanner` (`register.dfy`): `register` as imperative code. Its loops push into the three
  address buckets, as the nested `forEach` callbacks do. The method is proved equal to the
  specification function `RegisterPlan`, and the lemmas state what that plan is.
- `UnregisterPlanner` (`unregister.dfy`): `unregister` as the source's filter/filter/map
  pipeline, with `byName`, `byValue` and the `anyOf` combinator.
- `Handler` (`handler.dfy`): the SDK v3 `handler`.
- `LegacyHandler` (`legacy_handler.dfy`): the SDK v2 `unregister` and `handler`.

The AWS calls are inputs. `Collaborators` holds `DescribeInstances`, `GetHostedZone` and
`ListResourceRecordSets` as functions of their arguments, plus `punycode.toASCII`. A handler
returns an `Outcome` and the trace of calls it made: `Ignored`, `NoMatchingInstance`,
`NoHostedZone`, `NoChanges`, `Applied(changes)`, or, in the SDK v2 version only,
`Rejected(error)`. `ChangeResourceRecordSets` is the last entry of that trace.

The first filter of `unregister` (`app/index.ts:126`, `src/index.ts:118`) drops only the record
sets whose `ResourceRecords` field is *absent*. An empty array is truthy in JavaScript and passes,
so an empty `A` set named after the instance is deleted. `tests/index.test.ts:311-320` expects
exactly this, and `UnregisterFixture` proves it.

## Model

| member | source | states |
|---|---|---|
| `Tags.GetTagValue` | app/index.ts:21-29 | The result is the value of the first tag whose key matches; it is absent when `Tags` is absent or no tag matches; a present result comes from a tag carrying the key |
| `Tags.FirstValueAt` | app/index.ts:24-26 | The first tag whose key matches decides the result, whatever the later tags hold, including a later tag with the same key |
| `Tags.FirstValueMissing` | src/index.ts:14-20 | When no tag carries the key, the search runs off the end of the list and yields nothing |
| `Tags.FirstValueFrom` | src/index.ts:17-19 | A present lookup result is the value of some tag that carries the key |
| `RegisterPlanner.PushPrivateEntries` | app/index.ts:58-61 | The per-interface callback appends to the private bucket the truthy `PrivateIpAddress` values, and to the public bucket the truthy `Association.PublicIp` values, in entry order |
| `RegisterPlanner.PushIpv6Entries` | app/index.ts:63-65 | The IPv6 callback appends the truthy `Ipv6Address` values in entry order |
| `RegisterPlanner.CollectBuckets` | app/index.ts:54-66 | The interface walk yields the three buckets in interface-then-entry order |
| `RegisterPlanner.PresentMembers` | app/index.ts:59-64 | A value enters a bucket exactly when some entry carries it in the field and it is not empty; absent and empty fields are skipped |
| `RegisterPlanner.GatherMembers` | app/index.ts:57 | A value is in the instance's bucket exactly when the bucket of one of its interfaces holds it |
| `RegisterPlanner.PrivateV4Members` | src/index.ts:48-50 | The private IPv4 bucket holds exactly the non-empty `PrivateIpAddress` fields over all interfaces and entries |
| `RegisterPlanner.PublicV4Members` | src/index.ts:49-51 | The public IPv4 bucket holds exactly the non-empty public IPs associated with private address entries |
| `RegisterPlanner.PublicV6Members` | src/index.ts:54-56 | The IPv6 bucket holds exactly the non-empty `Ipv6Address` fields |
| `RegisterPlanner.Sanitize` | app/index.ts:100 | The replace step keeps the length; every resulting character is in `'!'..'~'`; printable characters are kept and every other character becomes `'_'` |
| `RegisterPlanner.SanitizeIdempotent` | src/index.ts:91 | An all-printable label is left as it is, so sanitising twice equals sanitising once |
| `RegisterPlanner.Register` | app/index.ts:53-116 | The imperative register returns exactly the specified plan `RegisterPlan` (buckets, sets by zone privacy, early empty return, label CNAME, CREATE with TTL) |
| `RegisterPlanner.RegisterPlanCreates` | app/index.ts:109-115 | Every register change is a `CREATE` whose record set carries TTL 300 |
| `RegisterPlanner.CreatesRoundTrip` | src/index.ts:100-106 | Wrapping keeps one change per set, in order; with the TTL removed, each change carries its set unchanged |
| `RegisterPlanner.AddressSetTypes` | app/index.ts:71-95 | The address sets are `A`, `AAAA`, or `A` then `AAAA` (or none) |
| `RegisterPlanner.RegisterPlanOrder` | src/index.ts:59-106 | The record types of a plan strictly follow the order A, AAAA, CNAME, so there is at most one of each |
| `RegisterPlanner.PrivateZonePlan` | app/index.ts:71-78 | Private zone: an empty private bucket gives an empty plan; otherwise the first change is the `A` set of exactly the private bucket under `<instance-id>.<zone name>`; no `AAAA`; every `A` carries only the private bucket |
| `RegisterPlanner.PublicZonePlan` | app/index.ts:79-95 | Public zone: the `A` set of the public IPv4 bucket comes first when that bucket is non-empty, then the `AAAA` set of the IPv6 bucket when that one is non-empty; with both empty the plan is empty |
| `RegisterPlanner.PublicZoneTypes` | src/index.ts:70-86 | Public zone: an `A` change appears iff a public IPv4 address exists; an `AAAA` change iff an IPv6 address exists |
| `RegisterPlanner.CnamePlan` | app/index.ts:96-107 | No address set: an empty plan whatever the tags. Otherwise a truthy label adds exactly one last `CNAME`, named label + "." + zone name + "." with every label character printable, whose single value is the canonical name; a falsy label adds none |
| `RegisterPlanner.LabelPrecedence` | app/index.ts:98 | A truthy value on the first `HostName` tag is the label, whatever the `Name` tag says |
| `RegisterPlanner.LabelFallback` | src/index.ts:89 | When the first `HostName` tag is missing or has a falsy value, the label is the value of the first `Name` tag, whatever later `HostName` tags hold |
| `RegisterPlanner.RegisterFixture` | tests/index.test.ts:247-271 | The test instance yields A, AAAA, CNAME in a public zone and A, CNAME in a private zone, each set with one record |
| `UnregisterPlanner.AnyOf` | app/index.ts:41-49 | The combined predicate holds exactly when one of the predicates holds |
| `UnregisterPlanner.AnyOfNameOrValue` | app/index.ts:33-39 | `anyOf(byName(fqdn), byValue(fqdn))` holds exactly when the set's name is the fqdn, or one of its record values is (exact string equality) |
| `UnregisterPlanner.FilterConcat` | app/index.ts:127 | Filtering a concatenation is concatenating the filtered parts, so order is kept |
| `UnregisterPlanner.FilterMembers` | app/index.ts:126 | An element survives a filter exactly when it is in the input and passes the predicate |
| `UnregisterPlanner.FilterFilter` | src/index.ts:118-119 | The two successive filters equal one filter by both conditions |
| `UnregisterPlanner.UnregisterIsFilter` | app/index.ts:118-132 | Unregister is the `DELETE` of the listed sets that have a `ResourceRecords` field and carry the fqdn by name or value, in listing order |
| `UnregisterPlanner.UnregisterOne` | app/index.ts:128-131 | A single set is deleted, unchanged and with no TTL added, exactly when it is doomed |
| `UnregisterPlanner.UnregisterConcat` | src/index.ts:117-123 | The changes for a listing are those for its first part followed by those for the rest (listing order kept) |
| `UnregisterPlanner.UnregisterMembers` | app/index.ts:125-131 | A change is planned iff it is a `DELETE` of a listed set that is doomed; an absent listing (`|| []`) plans nothing |
| `UnregisterPlanner.UnregisterThree` | app/index.ts:126-131 | Over a three-set listing the result is the `DELETE`s of the doomed sets in listing order |
| `UnregisterPlanner.UnregisterFixture` | tests/index.test.ts:285-320 | The CNAME pointing at `i-dummy.example.org.` and the empty `A` set named after it are deleted, in that order; the SOA is not |
| `UnregisterPlanner.UnregisterUndottedFixture` | test/index.test.ts:299-333 | With the CNAME value lacking the trailing dot, only the `A` set is deleted |
| `Handler.FirstInstanceFound` | app/index.ts:158 | The instance used is the first one in the first non-empty reservation, provided every earlier reservation has an empty list; a reservation without a list before it yields no instance |
| `Handler.FirstInstanceNone` | src/index.ts:151-155 | No reservation, or only empty instance lists, yields no instance |
| `Handler.Reconcile` | app/index.ts:170-188 | The zone is fetched with the tag's id and its `Id` is set to that value. The selected plan is made; the listing is read only when unregistering. An empty plan ends with `NoChanges`; otherwise exactly one batch with the whole plan goes to that zone id, as the last call |
| `Handler.Handle` | app/index.ts:134-189 | States other than running/stopped/terminated return before any call. Otherwise `DescribeInstances` comes first, filtered on the `HostedZone` tag key. No instance, or no truthy zone tag, stops before the zone lookup. Else the full call trace and outcome are those of the plan; at most one batch, last, only when the plan is non-empty |
| `LegacyHandler.LegacyUnregister` | src/index.ts:109-124 | An absent listing makes unregister fail; a present one gives the same changes as the SDK v3 unregister |
| `LegacyHandler.LegacyUnregisterMembers` | src/index.ts:118-123 | With a listing, the SDK v2 unregister deletes exactly the doomed listed sets, in listing order, each unchanged |
| `LegacyHandler.Reconcile` | src/index.ts:163-183 | As the SDK v3 steps, except that an absent listing rejects the invocation after the listing call, with no batch |
| `LegacyHandler.Handle` | src/index.ts:126-184 | The same dispatch and early exits as the SDK v3 handler; a failed plan is `Rejected` with no batch; otherwise the trace and outcome of the plan, with at most one batch, last |

## Left out

- AWS SDK calls: they are fields of `Collaborators`, functions of their arguments. Network failures and errors these calls throw are not modelled. Only the SDK v2 snapshot's own `TypeError` on an absent listing is.
- `punycode.toASCII` is a library not part of this model. It is the parameter `toAscii`; only the `replace(/[^!-~]/g, '_')` step after it is modelled, and the printable bound rests on that step alone.
- Sanitize: Dafny characters are Unicode scalar values, while the JavaScript regular expression (no `u` flag) works on UTF-16 code units. A character outside the Basic Multilingual Plane therefore becomes one `_` here and two `_` in the source. After `toASCII` such characters do not normally remain.
- `console.info` logging, `JSON.stringify` of the batch response, and the `async`/Promise chaining: the model is sequential and returns values.
- JavaScript interpolation of `undefined` (`"undefined.example.org."` when `InstanceId` or the zone `Name` is missing): both are plain strings here.
- An event without `detail` crashes the source; events here always have both fields.
- Record-set fields other than name, type, TTL and values (alias targets, routing policies, and so on) are not modelled. Unregister passes each set through unchanged, which holds for the fields kept.
- `Config.PrivateZone` is a boolean inside an optional `Config`. An absent `PrivateZone` inside a present `Config` is not distinguished from `false`; both are falsy in the source.
- The `Filters` on `DescribeInstances` are applied by EC2. The model records the filter in the call and takes whatever instance the collaborator returns.
- Pagination of the record-set listing: the source reads one page, and so does the model.
- `src/main.ts`, `cdk/index.ts` and `.projenrc.ts`: infrastructure definitions with no decision logic.

## Findings

| source | as written | input that shows it | evidently intended | confidence | as-written member | corrected member |
|---|---|---|---|---|---|---|
| test/index.test.ts:309 | The SDK v3 unregister test lists a CNAME whose value is `i-dummy.example.org` (no trailing dot) and expects two deletions, CNAME then A (lines 330-332). Matching is exact, so the CNAME does not match the fqdn `i-dummy.example.org.` and only the `A` set is deleted | instance `i-dummy`, zone `example.org.`, listing [CNAME `test.example.org.` → `i-dummy.example.org`, A `i-dummy.example.org.` with no records, SOA `example.org.` with no records] | The value `i-dummy.example.org.`, as in the SDK v2 test (tests/index.test.ts:292), for which both deletions happen | not executed; high | `UnregisterPlanner.UnregisterUndottedFixture` | `UnregisterPlanner.UnregisterFixture` |
