# MountPoint unmarshaller and DistributionConfigWithTags, in Dafny

This project models two pieces of a generated AWS Java SDK:

- **The ECS `MountPoint` JSON unmarshaller.** It walks a JSON token cursor and fills in a
  `MountPoint` (`sourceVolume`, `containerPath`, `readOnly`). It records the entry depth and
  parent element. It fetches a first token if there is none. `VALUE_NULL` gives `null`. Then it
  loops: a known field name at depth `originalDepth + 1` is stepped past and its decoded value is
  stored. The three field tests are sequential `if`s, so each sees the cursor the one before it
  left. An `END_OBJECT`/`END_ARRAY` that closes the call's own region stops the loop and stays
  the current token. The lazily created shared instance (`getInstance`) is modelled too.
- **The CloudFront `DistributionConfigWithTags` model object.** It has two nullable references
  with setters, getters and fluent `with` methods, a null-aware `equals`, a `hashCode` in
  wrapping 32-bit arithmetic, a `toString` layout and a shallow `clone`.

Layout:

- `wrappers.dfy`: `Option` (a nullable reference) and `Result` (a return or a thrown exception).
- `json_context.dfy`: the token cursor. `Advance` is one fetch as a function on cursor values.
  The class `JsonUnmarshallerContext` holds the same state in fields; its `NextToken` is proved
  to follow `Advance`.
- `mount_point_unmarshaller.dfy`: `TestField`, `FieldTests`, `Loop` and `UnmarshallRun` state
  what one call computes. The class `MountPointJsonUnmarshaller` holds the imperative loop over a
  `JsonUnmarshallerContext` and a `MountPoint` result object, proved against them.
- `mount_point_properties.dfy`: which fields a call writes, last occurrence wins, decoding a flat
  object equals an entry-by-entry fold (`Fold`), and field order does not matter.
- `mount_point_examples.dfy`: one concrete pair of scalar decoders, the round trip of every
  `MountPoint`, and worked token streams.
- `distribution_config_with_tags.dfy`: the CloudFront object and its `equals`/`hashCode` lemmas.

The cursor's own implementation (`JsonUnmarshallerContext`) is not part of this model. Here it is
a cursor over a finite token sequence with this bookkeeping:

- the depth is the number of open containers (+1 on `START_*`, -1 on `END_*`);
- a stack records, for each open container, the field name that opened it;
- on an `END_*` token, the field name popped off that stack is the "last parsed parent element";
  every other fetch resets it to null;
- `testExpression(name, d)` holds when the current token is the field name `name` and the depth
  is `d`.

The string and boolean decoders are parameters. Each reads the current token and returns a
nullable value or throws. The nested `DistributionConfig` and `Tags` are opaque objects whose
`equals`, `hashCode` and `toString` are parameters too.

When the cursor already sits on `VALUE_NULL` on entry, the call returns null and fetches nothing
(`MountPointJsonUnmarshaller.java:40-42`); only a call with no current token fetches one first
(`UnmarshallRun`).

## Model

| member | source | states |
|---|---|---|
| JsonContext.Advance | aws-java-sdk-ecs/src/main/java/com/amazonaws/services/ecs/model/transform/MountPointJsonUnmarshaller.java:66 | a fetch makes the next stream token current, or null once the stream is exhausted; it moves the depth by +1/-1 on start/end tokens only; the count of tokens left never grows, and shrinks whenever there was a current token, so a loop that fetches on every iteration terminates |
| JsonContext.JsonUnmarshallerContext.NextToken | aws-java-sdk-ecs/src/main/java/com/amazonaws/services/ecs/model/transform/MountPointJsonUnmarshaller.java:66 | the in-place fetch leaves the context in exactly the state `Advance` gives and returns the new current token |
| MountPointTransform.Assign | aws-java-sdk-ecs/src/main/java/com/amazonaws/services/ecs/model/transform/MountPointJsonUnmarshaller.java:50-58 | decoding and storing one known field succeeds exactly when that field's decoder (the boolean one for `readOnly`, the string one otherwise) returns; the field then holds the decoded value and no other field changes; otherwise the decoder's exception is the result |
| MountPointTransform.TestField | aws-java-sdk-ecs/src/main/java/com/amazonaws/services/ecs/model/transform/MountPointJsonUnmarshaller.java:48-51 | a field test that does not match changes neither cursor nor fields; one that matches advances exactly one token onto the value and then stores the decoded value, or stops with the decoder's exception |
| MountPointTransform.FieldTests | aws-java-sdk-ecs/src/main/java/com/amazonaws/services/ecs/model/transform/MountPointJsonUnmarshaller.java:47-59 | the three sequential tests either change nothing or consume at least one token; an unknown field name, or any field name at a depth other than the target, leaves cursor and result unchanged |
| MountPointTransform.Loop | aws-java-sdk-ecs/src/main/java/com/amazonaws/services/ecs/model/transform/MountPointJsonUnmarshaller.java:44-67 | the loop never yields null; when it returns a MountPoint, the cursor is either at the end of the stream or on an END token whose last parsed parent is null or the entry parent and whose depth is at most the entry depth, and that token was not advanced past; the cursor never moves backwards |
| MountPointTransform.UnmarshallRun | aws-java-sdk-ecs/src/main/java/com/amazonaws/services/ecs/model/transform/MountPointJsonUnmarshaller.java:33-43 | the result is null exactly when the first inspected token (the current one, else the next in the stream) is `VALUE_NULL`, and then the cursor has moved by one token if none was current and by none otherwise |
| MountPointTransform.MountPointJsonUnmarshaller.TestAndAssign | aws-java-sdk-ecs/src/main/java/com/amazonaws/services/ecs/model/transform/MountPointJsonUnmarshaller.java:48-59 | one `testExpression`/`nextToken`/setter step on the context and result object does what `TestField` says, or reports the decoder's exception |
| MountPointTransform.MountPointJsonUnmarshaller.FieldTestsInPlace | aws-java-sdk-ecs/src/main/java/com/amazonaws/services/ecs/model/transform/MountPointJsonUnmarshaller.java:47-59 | the three tests run in the source's order on the shared cursor, as `FieldTests` says |
| MountPointTransform.MountPointJsonUnmarshaller.Unmarshall | aws-java-sdk-ecs/src/main/java/com/amazonaws/services/ecs/model/transform/MountPointJsonUnmarshaller.java:33-70 | the imperative `unmarshall` leaves the cursor where `UnmarshallRun` says; it returns null, a new MountPoint holding exactly the fields `UnmarshallRun` gives, or the decoder's exception |
| MountPointTransform.MountPointJsonUnmarshallerStatics.GetInstance | aws-java-sdk-ecs/src/main/java/com/amazonaws/services/ecs/model/transform/MountPointJsonUnmarshaller.java:72-76 | the first call creates a new instance and stores it; every later call returns that same stored instance |
| MountPointProperties.ExhaustedStreamGivesUnset | aws-java-sdk-ecs/src/main/java/com/amazonaws/services/ecs/model/transform/MountPointJsonUnmarshaller.java:34-45 | with nothing current and nothing left to fetch (an empty stream), the call returns a non-null MountPoint with all three fields unset |
| MountPointProperties.FieldTestsKeep | aws-java-sdk-ecs/src/main/java/com/amazonaws/services/ecs/model/transform/MountPointJsonUnmarshaller.java:47-59 | one iteration's tests keep any field whose name does not come up at the target depth from the cursor on |
| MountPointProperties.FieldFrame | aws-java-sdk-ecs/src/main/java/com/amazonaws/services/ecs/model/transform/MountPointJsonUnmarshaller.java:44-67 | nothing else is written: a field whose name does not come up again at the object's own depth comes back as it was, so occurrences nested inside other values never change it |
| MountPointProperties.LastOccurrenceWins | aws-java-sdk-ecs/src/main/java/com/amazonaws/services/ecs/model/transform/MountPointJsonUnmarshaller.java:47-59 | a known field name at the target depth steps onto its value and stores the decoded value; if the name does not come up again at that depth, that value is the one returned, so of repeated occurrences the last one at the object's level wins and deeper ones are ignored |
| MountPointProperties.EntriesLoop | aws-java-sdk-ecs/src/main/java/com/amazonaws/services/ecs/model/transform/MountPointJsonUnmarshaller.java:44-67 | over the field/value pairs of an object, the loop returns what the entry-by-entry fold returns and stops on the object's END_OBJECT |
| MountPointProperties.DecodeObject | aws-java-sdk-ecs/src/main/java/com/amazonaws/services/ecs/model/transform/MountPointJsonUnmarshaller.java:33-70 | unmarshalling a top-level object of scalar fields equals the fold that skips unknown names, assigns known ones in order and stops at the first decoder exception; on success the cursor is left on the final END_OBJECT |
| MountPointProperties.FoldSwap | aws-java-sdk-ecs/src/main/java/com/amazonaws/services/ecs/model/transform/MountPointJsonUnmarshaller.java:47-59 | swapping two adjacent entries with different names that both decode does not change the fold |
| MountPointProperties.FieldOrderIrrelevant | aws-java-sdk-ecs/src/main/java/com/amazonaws/services/ecs/model/transform/MountPointJsonUnmarshaller.java:33-70 | swapping two adjacent fields with different names that both decode does not change what the unmarshaller returns |
| MountPointExamples.RoundTrip | aws-java-sdk-ecs/src/main/java/com/amazonaws/services/ecs/model/transform/MountPointJsonUnmarshaller.java:33-70 | every MountPoint written as an object of its non-null fields is read back exactly, with the cursor on that object's END_OBJECT |
| MountPointExamples.NullDocument | aws-java-sdk-ecs/src/main/java/com/amazonaws/services/ecs/model/transform/MountPointJsonUnmarshaller.java:40-42 | the stream `[VALUE_NULL]` gives null after fetching exactly one token |
| MountPointExamples.AllThreeFields | aws-java-sdk-ecs/src/main/java/com/amazonaws/services/ecs/model/transform/MountPointJsonUnmarshaller.java:47-59 | an object with all three fields decodes to sourceVolume "data", containerPath "/var/data", readOnly true |
| MountPointExamples.UnknownFieldSkipped | aws-java-sdk-ecs/src/main/java/com/amazonaws/services/ecs/model/transform/MountPointJsonUnmarshaller.java:47-59 | an unknown field before `sourceVolume` is skipped without an exception |
| MountPointExamples.NestedUnknownObjectSkipped | aws-java-sdk-ecs/src/main/java/com/amazonaws/services/ecs/model/transform/MountPointJsonUnmarshaller.java:60-63 | an inner object under an unknown field is skipped: a known name inside it is one level too deep, and its END_OBJECT does not end the call |
| MountPointExamples.NestedRepeatIgnored | aws-java-sdk-ecs/src/main/java/com/amazonaws/services/ecs/model/transform/MountPointJsonUnmarshaller.java:47-59 | a known name repeated inside the object value of an unknown field is one level too deep and is ignored; the top-level value is kept |
| CloudFrontModel.DistributionConfigWithTags.SetDistributionConfig | aws-java-sdk-cloudfront/src/main/java/com/amazonaws/services/cloudfront/model/DistributionConfigWithTags.java:34-46 | after the setter the getter returns the value set, and the tags are unchanged |
| CloudFrontModel.DistributionConfigWithTags.SetTags | aws-java-sdk-cloudfront/src/main/java/com/amazonaws/services/cloudfront/model/DistributionConfigWithTags.java:68-80 | after the setter the getter returns the tags set, and the configuration is unchanged |
| CloudFrontModel.DistributionConfigWithTags.WithDistributionConfig | aws-java-sdk-cloudfront/src/main/java/com/amazonaws/services/cloudfront/model/DistributionConfigWithTags.java:56-59 | sets the configuration, leaves the tags, and returns the same object |
| CloudFrontModel.DistributionConfigWithTags.WithTags | aws-java-sdk-cloudfront/src/main/java/com/amazonaws/services/cloudfront/model/DistributionConfigWithTags.java:90-93 | sets the tags, leaves the configuration, and returns the same object |
| CloudFrontModel.DistributionConfigWithTags.Equals | aws-java-sdk-cloudfront/src/main/java/com/amazonaws/services/cloudfront/model/DistributionConfigWithTags.java:114-133 | true for the same reference; false for null or an object of another class; otherwise true exactly when each field is null on both sides or non-null on both and equal by the nested equals |
| CloudFrontModel.DistributionConfigWithTags.HashCode | aws-java-sdk-cloudfront/src/main/java/com/amazonaws/services/cloudfront/model/DistributionConfigWithTags.java:135-143 | the step-by-step wrapping computation equals `31*(31*1 + h(config)) + h(tags)` wrapped once to 32 bits, with 0 for a null field |
| CloudFrontModel.DistributionConfigWithTags.ToString | aws-java-sdk-cloudfront/src/main/java/com/amazonaws/services/cloudfront/model/DistributionConfigWithTags.java:102-112 | the text is braced; it is `{}` exactly when both fields are null; a set configuration appears first as `DistributionConfig: <text>,`; set tags appear as `Tags: <text>` right before the closing brace; the length accounts for exactly the present parts, so the whole text is determined |
| CloudFrontModel.DistributionConfigWithTags.Clone | aws-java-sdk-cloudfront/src/main/java/com/amazonaws/services/cloudfront/model/DistributionConfigWithTags.java:145-152 | a new object whose two fields are the same references as the original's |
| CloudFrontModel.SameFieldsEqual | aws-java-sdk-cloudfront/src/main/java/com/amazonaws/services/cloudfront/model/DistributionConfigWithTags.java:124-132 | two objects holding the same references are equal both ways, given the nested equals is reflexive |
| CloudFrontModel.EqualsSymmetric | aws-java-sdk-cloudfront/src/main/java/com/amazonaws/services/cloudfront/model/DistributionConfigWithTags.java:114-133 | equals is symmetric when the nested equals are |
| CloudFrontModel.EqualHashCodes | aws-java-sdk-cloudfront/src/main/java/com/amazonaws/services/cloudfront/model/DistributionConfigWithTags.java:114-143 | equal objects have equal hash codes, when the nested types' equals and hashCode agree |
| CloudFrontModel.EmptyHashCode | aws-java-sdk-cloudfront/src/main/java/com/amazonaws/services/cloudfront/model/DistributionConfigWithTags.java:136-142 | an object with both fields null hashes to 961 |
| CloudFrontModel.CloneIsEqual | aws-java-sdk-cloudfront/src/main/java/com/amazonaws/services/cloudfront/model/DistributionConfigWithTags.java:145-152 | a clone is a distinct object, equal to the original both ways and with the same hash code, given the nested equals is reflexive |

## Left out

- `src/main/java/com/amazonaws/services/dynamodb/AmazonDynamoDBAsyncClient.java`: every method hands a blocking call to a thread pool and returns a future, and `shutdown` stops the pool. That is concurrency and network plumbing with no logic of its own.
- `JsonUnmarshallerContext` and the Jackson lexer are not part of this model. The cursor's bookkeeping above is an assumed abstraction, not the SDK's code. Under it the depth counts open containers. A call entered on an already-fetched `START_OBJECT` would therefore look for its fields one level deeper than they are. So the round trip and the worked streams are stated for a top-level call, entered before the object's first token.
- The SDK's `StringJsonUnmarshaller` and `BooleanJsonUnmarshaller` are not part of this model. They are parameters of every lemma except those in `mount_point_examples.dfy`, which use one strict pair (`StrictString`, `StrictBoolean`) that accepts only values of its own kind or null.
- An `IOException` from the parser during `nextToken` is not modelled: fetching never fails here.
- Number tokens are not modelled; a `MountPoint` has no numeric field.
- Decoding a nested composite or a list field is not part of this core: `MountPoint` has only scalar fields.
- The depth is an unbounded integer; nesting deeper than 2^31 containers, where Java's `int` depth would wrap, is not captured.
- `MountPointTransform.MountPointJsonUnmarshallerStatics.GetInstance`: the static field is a field of an explicit object, and the unsynchronised check-then-set is modelled only sequentially, not under concurrent callers.
- The contents of `DistributionConfig` and `Tags`, and `Serializable`, are not modelled. Their `equals`, `hashCode` and `toString` are parameters, and their Java contracts (reflexive, symmetric, consistent with `hashCode`) are stated as requirements of the lemmas that need them.
- `CloudFrontModel.DistributionConfigWithTags.Equals`: `instanceof` also accepts subclasses; the model has no subclasses, so only the exact class is considered.
- `CloudFrontModel.DistributionConfigWithTags.Clone`: the `CloneNotSupportedException` branch cannot happen for a `Cloneable` class and is left out.
