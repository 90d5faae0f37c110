# kops: classic ELB task, HCL2 writer and cluster-autoscaler defaults, in Dafny

This project models three pieces of kops, the Kubernetes cluster provisioner.

**The `ClassicLoadBalancer` cloud task** (`elb.dfy`, `elb_task.dfy`) has three parts:

- **The desired-state record of an AWS Classic ELB.** This is the class `ClassicLoadBalancer` and its value `Elb.LoadBalancer`.
- **The lookups of an existing ELB:**
  - by name, over the pages of a `DescribeLoadBalancers` listing;
  - by Route 53 alias target.
- **The ELB task's operations:**
  - `Find` discovers the actual state and back-fills the desired record.
  - `Normalize` sorts subnets and security groups stably by ID.
  - `CheckChanges` validates a first creation.
  - `RenderAWS` talks to the ELB API.
  - `RenderTerraform` and `TerraformLink` write Terraform.

The ELB API is the class `ElbTask.ElbApi`:

- It records every request the ELB task sends in `log`.
- It answers each request from a fixed oracle `answer`.
- Its `pages` are the pages of the load-balancer listing.

`RenderAWS` is specified by the pure function `RenderAwsRun`. The function returns the sequence of requests the run sends and the error that ends it, if any. Lemmas then prove two things about that run:

- which ELB every request concerns;
- which subnets it detaches and attaches.

**The HCL2 writer of the Terraform target** (`hcl.dfy`) covers these pieces:

- `writeValue` dispatches on the kind of a value.
- `writeLiteral`, `writeLiteralList` and `literalListTokens` write literals.
- `oldWriteMap` writes a map as raw tokens.
- `writeMap` writes a map as text into a byte buffer, with aligned ` = ` signs.
- `writeIndent` and `quote` are the helpers.

An `hclwrite.Body` is the class `Hcl.Body`, which holds a sequence of attributes and blocks. A `bytes.Buffer` is the class `Hcl.Buffer`, which holds its text.

**The cluster-autoscaler options builder** (`autoscaler.dfy`) is `ClusterAutoscalerOptionsBuilder.BuildOptions`. It fills every unset option of an enabled autoscaler with its default. The default image depends on the Kubernetes minor version.

**Shared helpers:**

- `strconv.dfy` models the parts of Go's `strconv` that the ELB task uses: `FormatInt`, and `ParseInt` with bit sizes 32 and 64.
- `sorting.dfy` models Go's string order, `sort.Stable` and `sort.Strings`.
- `wrappers.dfy` holds `Option` and `Result`.

## Model

| member | source | states |
|---|---|---|
| Strconv.FormatNat | upup/pkg/fi/cloudup/awstasks/classic_load_balancer.go:266 | the decimal form of a port is a non-empty string of digits |
| Strconv.DecimalValue | upup/pkg/fi/cloudup/awstasks/classic_load_balancer.go:463 | a string has a decimal value exactly when it is a non-empty run of digits |
| Strconv.ParseInt | upup/pkg/fi/cloudup/awstasks/classic_load_balancer.go:463 | a parsed value always lies inside the range of the requested bit size |
| Strconv.DecimalValueOfFormat | upup/pkg/fi/cloudup/awstasks/classic_load_balancer.go:266 | reading back the decimal form of a natural number gives that number |
| Strconv.FormatIntRoundTrip | upup/pkg/fi/cloudup/awstasks/classic_load_balancer.go:463 | parsing the formatted port key of any in-range integer gives the integer back, for both bit sizes |
| Strconv.TruncateToInt32 | upup/pkg/fi/cloudup/awstasks/classic_load_balancer.go:467 | the `int32(...)` conversion keeps every in-range value and otherwise agrees with it modulo 2^32 |
| Sorting.LessTotal | upup/pkg/fi/cloudup/awstasks/classic_load_balancer.go:618-620 | Go's byte-wise string order is total: two distinct strings are ordered one way or the other |
| Sorting.LessTransitive | upup/pkg/fi/cloudup/awstasks/classic_load_balancer.go:618-620 | Go's string order is transitive |
| Sorting.StableSortBy | upup/pkg/fi/cloudup/awstasks/classic_load_balancer.go:387-388 | `sort.Stable` returns a permutation of its input |
| Sorting.StableSortSorted | upup/pkg/fi/cloudup/awstasks/classic_load_balancer.go:387-388 | the result of `sort.Stable` is ordered by the key |
| Sorting.StableSortKeepsTies | upup/pkg/fi/cloudup/awstasks/classic_load_balancer.go:387-388 | elements with equal keys keep their relative order (stability) |
| Sorting.StableSortOfSorted | upup/pkg/fi/cloudup/awstasks/classic_load_balancer.go:387-388 | sorting an already ordered sequence leaves it as it is |
| Sorting.StableSortIdempotent | upup/pkg/fi/cloudup/awstasks/classic_load_balancer.go:387-388 | sorting twice gives the same as sorting once |
| Sorting.SortedPermutationUnique | upup/pkg/fi/cloudup/terraform/hcl2.go:223 | two sorted arrangements of the same strings are the same sequence, so the key order does not depend on map iteration |
| Sorting.SortedKeys | upup/pkg/fi/cloudup/terraform/hcl2.go:157-161 | the keys of a map in `sort.Strings` order are strictly increasing and are exactly the map's keys |
| Sorting.SortedGatheredKeys | upup/pkg/fi/cloudup/terraform/hcl2.go:214-223 | keys gathered in any order and then sorted are the map's keys in increasing order |
| Sorting.SortStableBy | upup/pkg/fi/cloudup/awstasks/classic_load_balancer.go:387-388 | the insertion-sort loop computes the stable sort |
| Sorting.SortStrings | upup/pkg/fi/cloudup/terraform/hcl2.go:161 | `sort.Strings` computes the stable sort of strings |
| Hcl.Escape | upup/pkg/fi/cloudup/terraform/hcl2.go:246-251 | escaping adds exactly one byte per backslash or double quote |
| Hcl.Quote | upup/pkg/fi/cloudup/terraform/hcl2.go:243-254 | a quoted key starts and ends with `"` and is 2 plus the escaped count longer than the key |
| Hcl.UnescapeEscape | upup/pkg/fi/cloudup/terraform/hcl2.go:246-251 | removing the inserted backslashes gives back the original string |
| Hcl.QuoteRoundTrip | upup/pkg/fi/cloudup/terraform/hcl2.go:243-254 | unquoting a quoted string gives back the string |
| Hcl.QuoteInjective | upup/pkg/fi/cloudup/terraform/hcl2.go:243-254 | two different keys never quote to the same text |
| Hcl.Spaces | upup/pkg/fi/cloudup/terraform/hcl2.go:237-241 | an indent of n is n spaces, and a non-positive indent is empty |
| Hcl.SpacesByteLen | upup/pkg/fi/cloudup/terraform/hcl2.go:237-241 | an indent of n occupies n bytes of the buffer |
| Hcl.WriteIndent | upup/pkg/fi/cloudup/terraform/hcl2.go:237-241 | the loop appends exactly the indent's spaces and nothing else |
| Hcl.MapKeys | upup/pkg/fi/cloudup/terraform/hcl2.go:157-160 | the gathering loop collects each key of the map exactly once |
| Hcl.SortKeys | upup/pkg/fi/cloudup/terraform/hcl2.go:223 | sorting the gathered keys gives the map's keys in increasing order |
| Hcl.MaxQuotedLen | upup/pkg/fi/cloudup/terraform/hcl2.go:215-220 | the widest quoted key: no key is wider, one key reaches it, and an empty map gives 0 |
| Hcl.KeysAndWidth | upup/pkg/fi/cloudup/terraform/hcl2.go:214-222 | the loop gathers every key once and computes the widest quoted key |
| Hcl.KeyColumnAligned | upup/pkg/fi/cloudup/terraform/hcl2.go:225-229 | every ` = ` of a map is at the same column: indent + 2 + the widest quoted key |
| Hcl.WriteMapLine | upup/pkg/fi/cloudup/terraform/hcl2.go:225-231 | one key line: indent, quoted key, padding, ` = `, the literal, newline |
| Hcl.WriteMapLines | upup/pkg/fi/cloudup/terraform/hcl2.go:224-232 | the loop appends one line per key, in the given order |
| Hcl.WriteMap | upup/pkg/fi/cloudup/terraform/hcl2.go:207-235 | an empty map writes nothing; otherwise an opening line, one aligned line per key in increasing order, and a closing brace at the opening indent |
| Hcl.ListElements | upup/pkg/fi/cloudup/terraform/hcl2.go:121-126 | the literals in order, a comma between each two and no trailing comma |
| Hcl.LiteralListTokens | upup/pkg/fi/cloudup/terraform/hcl2.go:117-129 | `[` with one space before it, the literals alternating with commas, then `]` |
| Hcl.ListElementsCounts | upup/pkg/fi/cloudup/terraform/hcl2.go:121-126 | n literals give n identifier tokens and n-1 commas |
| Hcl.SetAttributeGet | upup/pkg/fi/cloudup/terraform/hcl2.go:106 | after setting an attribute, reading it gives the new tokens, and every other attribute is unchanged |
| Hcl.SetAttributeAppends | upup/pkg/fi/cloudup/terraform/hcl2.go:106 | setting an attribute the body does not hold appends it at the end |
| Hcl.Body.SetAttributeRaw | upup/pkg/fi/cloudup/terraform/hcl2.go:106 | the body's new items are the old ones with the attribute set |
| Hcl.Body.AppendBlock | upup/pkg/fi/cloudup/terraform/hcl2.go:61-62 | the body gains exactly one nested block at its end |
| Hcl.EntriesTokensAt | upup/pkg/fi/cloudup/terraform/hcl2.go:162-193 | the tokens of key i sit between those of the keys before it and after it |
| Hcl.MapTokensLine | upup/pkg/fi/cloudup/terraform/hcl2.go:153-196 | an old-style map is `{`, newline, the entries in sorted key order, then `}` |
| Hcl.ExampleEntries | upup/pkg/fi/cloudup/terraform/hcl2.go:162-193 | a literal entry has no quotes; a string entry is quoted, and its closing token is typed as an opening quote, as the code writes it |
| Hcl.OldWriteMapExample | upup/pkg/fi/cloudup/terraform/hcl2.go:149-198 | an illustration of `MapTokensLine` on one input: a two-key map renders as the keys in order between braces |
| Hcl.WriteEntries | upup/pkg/fi/cloudup/terraform/hcl2.go:162-193 | the loop appends the tokens of each key in order |
| Hcl.OldWriteMap | upup/pkg/fi/cloudup/terraform/hcl2.go:149-198 | an empty map leaves the body as it is; otherwise it sets the key to the map's tokens |
| Hcl.ObjectBlocksAt | upup/pkg/fi/cloudup/terraform/hcl2.go:56-71 | a list of objects becomes exactly one block per element, the i-th written from the i-th object |
| Hcl.ObjectBlocksSnoc | upup/pkg/fi/cloudup/terraform/hcl2.go:58-71 | each further element adds one block after those of the earlier elements |
| Hcl.EmitAppends | upup/pkg/fi/cloudup/terraform/hcl2.go:34-98 | writing a new key keeps the body's earlier items in place and adds only items named by that key |
| Hcl.EmitFieldsSorted | upup/pkg/fi/cloudup/terraform/hcl2.go:84-91 | writing the fields in sorted key order leaves the body ordered by attribute name |
| Hcl.ObjectBodySorted | upup/pkg/fi/cloudup/terraform/hcl2.go:81-91 | the block of an object is ordered by attribute name and holds only the object's fields |
| Hcl.WriteLiteral | upup/pkg/fi/cloudup/terraform/hcl2.go:105-112 | the key is set to the literal as a single identifier token |
| Hcl.WriteLiteralList | upup/pkg/fi/cloudup/terraform/hcl2.go:136-138 | the key is set to the list tokens of the literals |
| Hcl.WriteValue | upup/pkg/fi/cloudup/terraform/hcl2.go:34-98 | the body becomes what the value's kind prescribes: nothing for null or an empty list, raw tokens for literals, blocks for objects, the old-style map for a map |
| Hcl.WriteObjectList | upup/pkg/fi/cloudup/terraform/hcl2.go:56-71 | the body gains one block per object, in list order |
| Hcl.WriteObjectBody | upup/pkg/fi/cloudup/terraform/hcl2.go:63-70 | a block body holds the object's attributes written in sorted order |
| Elb.TrimSuffix | upup/pkg/fi/cloudup/awstasks/classic_load_balancer.go:160 | removing the suffix and putting it back gives the original string |
| Elb.CheckChanges | upup/pkg/fi/cloudup/awstasks/classic_load_balancer.go:392-432 | an update is never refused; a refused creation always names a required field |
| Elb.CheckChangesFirstViolation | upup/pkg/fi/cloudup/awstasks/classic_load_balancer.go:393-428 | a creation is refused exactly when a required field is missing, and the error names the first one in the code's order |
| Elb.MapToAws | upup/pkg/fi/cloudup/awstasks/classic_load_balancer.go:95-111 | SSL with the certificate when one is set, TCP otherwise; same protocol on both sides; ports copied |
| Elb.ListenerRoundTrip | upup/pkg/fi/cloudup/awstasks/classic_load_balancer.go:95-111 | reading back a listener the ELB task sent gives the ELB task's listener and the port it was keyed by |
| Elb.ListenerPathsAgree | upup/pkg/fi/cloudup/awstasks/classic_load_balancer.go:687-710 | for a 32-bit port key, Terraform and the AWS API get the same ports, protocols and certificate |
| Elb.TranslatePortsSpec | upup/pkg/fi/cloudup/awstasks/classic_load_balancer.go:462-469 | translation succeeds exactly when every key parses; it then gives one listener per key in order, and otherwise the error names a key that does not parse |
| Elb.TranslatePortsSnoc | upup/pkg/fi/cloudup/awstasks/classic_load_balancer.go:462-469 | each further key either stops with its parse error or adds its translated listener |
| Elb.TranslatePortsErrorStays | upup/pkg/fi/cloudup/awstasks/classic_load_balancer.go:463-466 | the first bad key decides the error; later keys change nothing |
| Elb.Filter | upup/pkg/fi/cloudup/awstasks/classic_load_balancer.go:202-206 | a page keeps exactly the descriptions the filter accepts |
| Elb.Listing | upup/pkg/fi/cloudup/awstasks/classic_load_balancer.go:193-209 | the listing succeeds exactly when every page does, and then holds exactly the accepted descriptions of all pages; a failure is wrapped with `%w` |
| Elb.ListingPrefixError | upup/pkg/fi/cloudup/awstasks/classic_load_balancer.go:196-200 | once a page fails, later pages do not change the outcome |
| Elb.ListingFirstError | upup/pkg/fi/cloudup/awstasks/classic_load_balancer.go:196-200 | a failing first page gives its error, wrapped |
| Elb.LookupOutcome | upup/pkg/fi/cloudup/awstasks/classic_load_balancer.go:143-151 | no match gives none, one match gives it, more than one is an ambiguity error |
| Elb.FindByNameOutcome | upup/pkg/fi/cloudup/awstasks/classic_load_balancer.go:119-152 | on a good listing, the lookup by name finds exactly the descriptions carrying that name |
| Elb.FindByNameNotFound | upup/pkg/fi/cloudup/awstasks/classic_load_balancer.go:133-141 | a LoadBalancerNotFound answer means no ELB rather than an error |
| Elb.FindByNameAsWrittenNeverAbsentOnError | upup/pkg/fi/cloudup/awstasks/classic_load_balancer.go:133-141 | as written, every listing error, LoadBalancerNotFound included, is reported as an error |
| Elb.FindByNameAsWrittenDiffers | upup/pkg/fi/cloudup/awstasks/classic_load_balancer.go:133-141 | the lookup as written and the corrected lookup disagree exactly when the listing fails with LoadBalancerNotFound, and agree on every other listing |
| Elb.FindByNameAsWrittenExample | upup/pkg/fi/cloudup/awstasks/classic_load_balancer.go:133-141 | on a LoadBalancerNotFound answer the code as written fails, where the corrected lookup finds nothing |
| Elb.AliasMatchesOwnName | upup/pkg/fi/cloudup/awstasks/classic_load_balancer.go:167-177 | an ELB matches an alias to its own DNS name, with or without `dualstack.` and a trailing dot |
| Elb.FindByAliasOutcome | upup/pkg/fi/cloudup/awstasks/classic_load_balancer.go:154-191 | an alias without a DNS name is an error; a failed listing is reported as `error listing ELBs`; otherwise no matching ELB is absent, exactly one is returned, and several are an ambiguity error on `DNSName`, over exactly the listed ELBs that match the alias |
| Elb.UniqueNotIn | upup/pkg/fi/cloudup/awstasks/classic_load_balancer.go:504 | the IDs of one list that are missing from the other, each once |
| Elb.Ids | upup/pkg/fi/cloudup/awstasks/classic_load_balancer.go:494-502 | one ID per reference, in order |
| Elb.SubnetDelta | upup/pkg/fi/cloudup/awstasks/classic_load_balancer.go:493-527 | detach exactly the actual subnets that are not desired, attach exactly the desired ones that are not attached; never both, and never a subnet in both lists |
| Elb.SubnetDeltaExample | upup/pkg/fi/cloudup/awstasks/classic_load_balancer.go:504-516 | an illustration of `SubnetDelta` on one input: going from {a, b} to {b, c} detaches a and attaches c |
| Elb.TagsFrom | upup/pkg/fi/cloudup/awstasks/classic_load_balancer.go:246-252 | the found tags are exactly the keys on the ELB outside the `aws:cloudformation:` prefix |
| Elb.TagsFromLastWins | upup/pkg/fi/cloudup/awstasks/classic_load_balancer.go:247-252 | a tag's value is that of its last occurrence |
| Elb.FoundTags | upup/pkg/fi/cloudup/awstasks/classic_load_balancer.go:242-252 | the found tags are exactly the non-CloudFormation keys listed for the found ELB's own name, and reading them never fails |
| Elb.FoundTagsAsWrittenAgrees | upup/pkg/fi/cloudup/awstasks/classic_load_balancer.go:242-247 | when the desired record carries the found ELB's name, the tags read as written are the corrected ones |
| Elb.FoundTagsAsWrittenExample | upup/pkg/fi/cloudup/awstasks/classic_load_balancer.go:242-247 | as written, the tags are read under the desired name and are lost when the names differ; a missing desired name panics |
| Elb.RefsOf | upup/pkg/fi/cloudup/awstasks/classic_load_balancer.go:254-260 | one reference per ID, with only the ID set |
| Elb.ListenersFrom | upup/pkg/fi/cloudup/awstasks/classic_load_balancer.go:262-272 | the found listeners are keyed by exactly the decimal ports of the ELB's listeners |
| Elb.ListenerKeysParse | upup/pkg/fi/cloudup/awstasks/classic_load_balancer.go:264-266 | every key of the found listeners parses back to one of the ELB's ports |
| Elb.Normalized | upup/pkg/fi/cloudup/awstasks/classic_load_balancer.go:385-390 | subnets and groups become sorted permutations of themselves, and every other field is unchanged |
| Elb.NormalizedIdempotent | upup/pkg/fi/cloudup/awstasks/classic_load_balancer.go:385-390 | normalizing twice is normalizing once |
| Elb.NormalizedStable | upup/pkg/fi/cloudup/awstasks/classic_load_balancer.go:385-390 | references with the same ID keep their relative order |
| Elb.BackfillSpec | upup/pkg/fi/cloudup/awstasks/classic_load_balancer.go:323-339 | the DNS name and hosted zone are filled only when unset, the ELB name becomes the actual one, and nothing else changes |
| Elb.DiscoveredSpec | upup/pkg/fi/cloudup/awstasks/classic_load_balancer.go:231-341 | the discovered state is normalized, holds no CloudFormation tags, has parseable listener keys and carries the found ELB's name |
| Elb.DesiredAfterFindSteps | upup/pkg/fi/cloudup/awstasks/classic_load_balancer.go:319-341 | after Find, the desired record is the backfilled one; it also shares the sorted subnets when the two subnet sets are equal |
| Elb.TerraformLink | upup/pkg/fi/cloudup/awstasks/classic_load_balancer.go:753-769 | a shared ELB links by its name; otherwise the link is `aws_elb.<name>.<attr>`, with attribute `id` by default |
| Elb.LessByNameStrictWeakOrder | upup/pkg/fi/cloudup/awstasks/classic_load_balancer.go:613-620 | ordering ELBs by name is a strict weak order, as `sort.Sort` needs |
| ElbTask.TailConcerns | upup/pkg/fi/cloudup/awstasks/classic_load_balancer.go:578-608 | the tags, health-check and attribute requests all concern the ELB being rendered |
| ElbTask.UpdateConcerns | upup/pkg/fi/cloudup/awstasks/classic_load_balancer.go:490-608 | every request of an update concerns the existing ELB, and the subnet requests are exactly the delta |
| ElbTask.CreateConcerns | upup/pkg/fi/cloudup/awstasks/classic_load_balancer.go:442-489 | every request of a creation concerns the new ELB, and a creation sends no subnet requests |
| ElbTask.RenderAwsConcernsOneElb | upup/pkg/fi/cloudup/awstasks/classic_load_balancer.go:434-611 | a render only ever addresses the one ELB it is about |
| ElbTask.UpdateSubnetsSpec | upup/pkg/fi/cloudup/awstasks/classic_load_balancer.go:493-527 | an update detaches and attaches exactly the subnet delta and never touches a subnet that is both desired and attached |
| ElbTask.DeltaUntouched | upup/pkg/fi/cloudup/awstasks/classic_load_balancer.go:504-526 | exact subnet requests never name a subnet that is both desired and attached |
| ElbTask.CreateRequestSpec | upup/pkg/fi/cloudup/awstasks/classic_load_balancer.go:442-469 | the first request of a creation carries the desired name, scheme, subnet and group IDs, and one listener per key |
| ElbTask.SuccessfulRunTail | upup/pkg/fi/cloudup/awstasks/classic_load_balancer.go:578-610 | a successful render sends the tag requests and ends with the attribute update |
| ElbTask.TailSucceeded | upup/pkg/fi/cloudup/awstasks/classic_load_balancer.go:578-608 | a successful tail sends add-tags, remove-tags, the health check only when it changed, then the attributes |
| ElbTask.SharedIsInert | upup/pkg/fi/cloudup/awstasks/classic_load_balancer.go:378-383 | a shared ELB is never created, is not touched through the API, is left as it is, and is not written to Terraform |
| ElbTask.ElbApi.Send | upup/pkg/fi/cloudup/awstasks/classic_load_balancer.go:473-476 | the request is logged, and the error is the oracle's answer, wrapped with the call's context |
| ElbTask.ElbApi.DescribeAll | upup/pkg/fi/cloudup/awstasks/classic_load_balancer.go:193-209 | the paging loop computes the listing |
| ElbTask.ElbApi.FindLoadBalancerByName | upup/pkg/fi/cloudup/awstasks/classic_load_balancer.go:119-152 | one describe request is logged, and the result is the corrected lookup by name (see Findings) |
| ElbTask.ElbApi.FindLoadBalancerByAlias | upup/pkg/fi/cloudup/awstasks/classic_load_balancer.go:154-191 | nothing is sent for an alias without a DNS name; otherwise one listing request, and the result is the alias lookup |
| ElbTask.FilterPage | upup/pkg/fi/cloudup/awstasks/classic_load_balancer.go:202-206 | the loop keeps exactly the accepted descriptions |
| ElbTask.IdsOf | upup/pkg/fi/cloudup/awstasks/classic_load_balancer.go:494-502 | the loop collects the IDs in order |
| ElbTask.TranslateListenerMap | upup/pkg/fi/cloudup/awstasks/classic_load_balancer.go:462-469 | the map loop visits every key once and computes the translation in the order visited |
| ElbTask.ReadTags | upup/pkg/fi/cloudup/awstasks/classic_load_balancer.go:246-252 | the loop computes the found tags |
| ElbTask.ReadRefs | upup/pkg/fi/cloudup/awstasks/classic_load_balancer.go:254-260 | the loop computes the found references |
| ElbTask.ReadListeners | upup/pkg/fi/cloudup/awstasks/classic_load_balancer.go:262-272 | the loop computes the found listeners |
| ElbTask.UpdateSubnets | upup/pkg/fi/cloudup/awstasks/classic_load_balancer.go:493-527 | the API log gains the subnet run, and the error is the run's |
| ElbTask.UpdateListeners | upup/pkg/fi/cloudup/awstasks/classic_load_balancer.go:542-575 | the API log gains the listener run for the order visited, and the error is the run's |
| ElbTask.UpdateSecurityGroups | upup/pkg/fi/cloudup/awstasks/classic_load_balancer.go:529-540 | one apply-security-groups request carrying the desired group IDs |
| ElbTask.UpdateElb | upup/pkg/fi/cloudup/awstasks/classic_load_balancer.go:490-576 | the API log gains the update run, and the error is the run's |
| ElbTask.UpdateGroupsAndListeners | upup/pkg/fi/cloudup/awstasks/classic_load_balancer.go:529-575 | the security-group step is followed by the listener run, stopping at the first error |
| ElbTask.ApplyTail | upup/pkg/fi/cloudup/awstasks/classic_load_balancer.go:578-608 | the API log gains the tail run, and the error is the run's |
| ElbTask.Links | upup/pkg/fi/cloudup/awstasks/classic_load_balancer.go:676-685 | one Terraform link per reference, in order |
| ElbTask.TerraformBodySpec | upup/pkg/fi/cloudup/awstasks/classic_load_balancer.go:670-747 | sorted links for subnets and groups, `internal` exactly for the internal scheme, an access log only when enabled, and the ELB task's tags over the build tags |
| ElbTask.TerraformRenderingSpec | upup/pkg/fi/cloudup/awstasks/classic_load_balancer.go:658-751 | a shared ELB writes nothing; a missing name is a required-field error; otherwise one `aws_elb` resource with one listener per key, parsed with 64 bits |
| ElbTask.MergeTags | upup/pkg/fi/cloudup/awstasks/classic_load_balancer.go:744-747 | the ELB task's tags override the build tags |
| ElbTask.LinksOf | upup/pkg/fi/cloudup/awstasks/classic_load_balancer.go:676-685 | the loop computes the links |
| ElbTask.ClassicLoadBalancer.Normalize | upup/pkg/fi/cloudup/awstasks/classic_load_balancer.go:385-390 | the record becomes its normalized form |
| ElbTask.ClassicLoadBalancer.Find | upup/pkg/fi/cloudup/awstasks/classic_load_balancer.go:219-346 | errors and absence pass through; a found ELB yields a fresh actual record, discovered and normalized, and the desired record is backfilled; otherwise the desired record is unchanged |
| ElbTask.ClassicLoadBalancer.Adopt | upup/pkg/fi/cloudup/awstasks/classic_load_balancer.go:231-341 | the actual record is the discovered state, and the desired record is backfilled from it |
| ElbTask.ClassicLoadBalancer.Reconcile | upup/pkg/fi/cloudup/awstasks/classic_load_balancer.go:319-341 | backfill the desired record, share the subnets when equal, and normalize the actual record |
| ElbTask.ClassicLoadBalancer.NormalizeShared | upup/pkg/fi/cloudup/awstasks/classic_load_balancer.go:319-341 | the actual record is normalized; the desired record sees the sorted subnets only when it shares them |
| ElbTask.ClassicLoadBalancer.Discover | upup/pkg/fi/cloudup/awstasks/classic_load_balancer.go:231-322 | a fresh record assembled from the description, and its subnets are the desired ones exactly when the two sets are equal |
| ElbTask.ClassicLoadBalancer.Backfill | upup/pkg/fi/cloudup/awstasks/classic_load_balancer.go:323-339 | the desired record becomes its backfilled form and keeps its subnets |
| ElbTask.ClassicLoadBalancer.RenderAws | upup/pkg/fi/cloudup/awstasks/classic_load_balancer.go:434-611 | the API log gains exactly the render's run, the error is the run's, and the record takes the rendered state |
| ElbTask.ClassicLoadBalancer.CreateElb | upup/pkg/fi/cloudup/awstasks/classic_load_balancer.go:442-489 | the API log gains the creation run, the error is its error, and the record takes the created state |
| ElbTask.ClassicLoadBalancer.RecordCreated | upup/pkg/fi/cloudup/awstasks/classic_load_balancer.go:478-489 | one describe request; the DNS name comes from the creation; the hosted zone comes from the found ELB; a missing ELB is an error |
| ElbTask.ClassicLoadBalancer.RenderTerraform | upup/pkg/fi/cloudup/awstasks/classic_load_balancer.go:658-751 | the result is the Terraform rendering of the record for the order the listeners were visited in |
| Components.SupportedMinor | pkg/model/components/clusterautoscaler.go:45-58 | a minor outside 21..25 falls back to 25, and every supported minor maps to itself |
| Components.ImageFor | pkg/model/components/clusterautoscaler.go:40-61 | the image is empty exactly when the Kubernetes version cannot be read |
| Components.ImageForRelease | pkg/model/components/clusterautoscaler.go:45-58 | the image is `registry.k8s.io/autoscaling/cluster-autoscaler:v1.<minor>.<patch>` for the supported minor |
| Components.OrDefault | pkg/model/components/clusterautoscaler.go:63-98 | a set option is kept, and an unset one takes the default |
| Components.DisabledUnchanged | pkg/model/components/clusterautoscaler.go:36-38 | an autoscaler that is not enabled is left as it is |
| Components.SetOptionsKept | pkg/model/components/clusterautoscaler.go:40-98 | no option the user set is overwritten |
| Components.UnsetOptionsDefaulted | pkg/model/components/clusterautoscaler.go:40-98 | after building, an enabled autoscaler has every option set, and each unset one has its documented default |
| Components.DefaultedIdempotent | pkg/model/components/clusterautoscaler.go:33-101 | building the options a second time changes nothing, whatever the Kubernetes version |
| Components.ClusterAutoscalerConfig.FillImage | pkg/model/components/clusterautoscaler.go:40-61 | only the image changes, and only when it was unset |
| Components.ClusterAutoscalerConfig.FillStrategyDefaults | pkg/model/components/clusterautoscaler.go:63-68 | only the expander and utilization threshold change, each only when unset |
| Components.ClusterAutoscalerConfig.FillNodeDefaults | pkg/model/components/clusterautoscaler.go:69-80 | only the four node options change, each only when unset |
| Components.ClusterAutoscalerConfig.FillDelayDefaults | pkg/model/components/clusterautoscaler.go:81-92 | only the four delays change, each only when unset |
| Components.ClusterAutoscalerConfig.FillProvisioningDefaults | pkg/model/components/clusterautoscaler.go:93-98 | only the provisioning time and auto-discovery change, each only when unset |
| Components.BuildOptions | pkg/model/components/clusterautoscaler.go:33-101 | the cluster's autoscaler options become their defaulted form, for the minor of the cluster's Kubernetes version |

## Left out

- **AWS SDK traffic.** The SDK calls are modelled as requests in a log, answered by a fixed oracle (`ElbApi.answer`). A paginated `DescribeLoadBalancers` listing is logged as one request, and its pages are `ElbApi.pages`. Throttling, retries and the SDK v1/v2 error types are not modelled. An API error is its error code.
- **Go map iteration order.** Where the source ranges over a map, the order is an unspecified ghost `order`. Contracts hold for every order that visits each key once.
- **Calls into code outside this model.** These become parameters of the operations:
  - `FindELBByNameTag`, `DescribeELBTags`, `findHealthCheck` and `findELBAttributes` are the results handed to `ClassicLoadBalancer.Find`.
  - `ParseKubernetesVersion` is the `minorOf` parameter of `BuildOptions`.
  - `BuildTags` is the `buildTags` parameter.
  - The `TerraformLink` of subnets and security groups are the `subnetLink` and `sgLink` parameters.
  - `GetUniqueStrings` and `subnetSlicesEqualIgnoreOrder` are written out as the functions `Elb.UniqueNotIn` and `Elb.SameSubnets`.
- **Single requests.** `modifyLoadBalancerAttributes`, `AddELBTags` and `RemoveELBTags` are each one request (`ModifyAttributes`, `AddTags`, `RemoveTags`). Their own bodies are not part of this model.
- **The port-443 listener delete.** It happens before listeners are recreated. It is a logged request whose error is ignored, as in the code.
- **Not modelled:**
  - logging (`klog`);
  - `context.Context`;
  - the executor and the diff engine that call `Run` (`classic_load_balancer.go:374-376`);
  - `CompareWithID`, `GetWellKnownServices`, `GetDependencies`, `FindAddresses`;
  - the field getters;
  - the Terraform structs' serialization by `RenderResource`. The rendered resource is the value `TerraformResource`.
- **Where the two Findings bite, the operations follow the corrected behaviour.** Each line below names a member whose contract is stated over `Elb.FindByName` or `Elb.FoundTags` rather than the code as written. `Elb.FindByNameAsWrittenDiffers` and `Elb.FoundTagsAsWrittenAgrees` state exactly on which inputs that makes a difference.
- FindLoadBalancerByName (ElbTask.ElbApi.FindLoadBalancerByName): a LoadBalancerNotFound listing gives "absent". As written, the code returns `error listing ELBs` (classic_load_balancer.go:133-141).
- UpdateListeners (ElbTask.UpdateListeners): on a LoadBalancerNotFound listing, the model takes the ELB as absent, creates the listeners and goes on. As written, the code stops with "error getting load balancer by name" (classic_load_balancer.go:544-547).
- UpdateGroupsAndListeners (ElbTask.UpdateGroupsAndListeners): its listener run has the same difference as UpdateListeners.
- UpdateElb (ElbTask.UpdateElb): its listener run has the same difference as UpdateListeners. The subnet and security-group steps are as written.
- CreateElb (ElbTask.ClassicLoadBalancer.CreateElb): a LoadBalancerNotFound answer to the re-query after creation gives `NotFoundAfterCreate`. As written, the code returns the listing error (classic_load_balancer.go:481-484).
- RecordCreated (ElbTask.ClassicLoadBalancer.RecordCreated): the same difference as CreateElb.
- RenderAws (ElbTask.ClassicLoadBalancer.RenderAws): the creation and listener paths carry the differences of CreateElb and UpdateListeners.
- Find (ElbTask.ClassicLoadBalancer.Find): the tags are read under the found ELB's name. As written, the code reads them under the desired `LoadBalancerName` (classic_load_balancer.go:247). That loses the tags when the two names differ, and panics when the desired name is unset.
- **Elb.TerraformLink** does not model the `klog.Fatalf` exit on a shared ELB without a name. It returns no link instead.
- **cty, gocty and reflection.** A cty value is the `Hcl.Value` datatype. It is already classified into the kinds `writeValue` distinguishes: the literal decoding by `gocty.FromCtyValue` is taken as decided.
- **hclwrite internals.** What `hclwrite` renders for `SetAttributeValue` is kept as an opaque rendered token per element. Calling `AsString` on a map value that is not a string panics in Go; values of that kind are not representable.
- **Strings.** Strings are sequences of characters. `Hcl.ByteLen` counts UTF-8 bytes per code point and does not model invalid UTF-8.
- **Pointer aliasing.** Find makes the desired record share the actual subnet slice when the two sets are equal. This is modelled as the two records holding equal values.
- **Components.BuildOptions** covers only the cluster-autoscaler fields the builder reads and writes. The rest of the cluster spec is left out.

## Findings

| source | as written | input that shows it | evidently intended | confidence | as-written member | corrected member |
|---|---|---|---|---|---|---|
| upup/pkg/fi/cloudup/awstasks/classic_load_balancer.go:133-141 | the `LoadBalancerNotFound` check type-asserts the error of `describeLoadBalancers`, but that error was wrapped with `%w` at line 199, so the assertion never matches and the lookup fails | a listing whose first page answers `LoadBalancerNotFound` | an ELB that does not exist is reported as absent (`nil, nil`) | not executed | Elb.FindByNameAsWrittenExample | Elb.FindByNameNotFound |
| upup/pkg/fi/cloudup/awstasks/classic_load_balancer.go:247 | Find reads the tag map under the desired `*e.LoadBalancerName` rather than the name of the ELB it found | a desired name "desired", and an ELB found by name tag as "actual" with tag Owner=team: the found tags are empty; a nil desired name dereferences nil | the tags are read under the found ELB's name | not executed | Elb.FoundTagsAsWrittenExample | Elb.FoundTags |
