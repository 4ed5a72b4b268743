# DALN configuration schema in Dafny

A verified model of the configuration schema of the decentralized
autonomous learning network (`daln_config.py`):

- the two closed string-valued enumerations, `LearningObjective` (five
  members) and `KnowledgeSharingProtocol` (four members), each modelled as a
  datatype with a tag encoder and a partial decoder built on one shared
  value-to-member lookup (`TagLookup.FindByTag`), as an enumeration resolves a
  string to the member declared with it;
- the `NodeConfig` record, with the schema's defaults as default values of
  the datatype constructor, and its `validate` method as the pure function
  `NodeConfigs.Validate`, which returns `Pass` where the source returns
  `True` and `Fail(e)` where it raises, `e` naming the condition that failed;
- the `NetworkConfig` record, with its defaults and no behaviour. The
  backing-store settings are a map whose value type is a type parameter, as
  they are opaque to this schema.

Files: `wrappers.dfy` (Option, Outcome), `tag_lookup.dfy` (the lookup),
`vocabulary.dfy` (both enumerations), `node_config.dfy`,
`network_config.dfy`.

`Validate` is specified independently of its body: `Violates(c, e)` judges
each of the four conditions on its own, `CheckRank` gives the order in which
they are checked, and `Validate` is proved to pass exactly when nothing is
violated and otherwise to report a violated condition that no other
violated condition precedes.

## Model

| member | source | states |
|---|---|---|
| TagLookup.FindByTag | daln_config.py:16-29 | Looking up a string among an enumeration's members fails exactly when no member is declared with it; otherwise it yields the first member, in declaration order, declared with that string |
| Vocabulary.AllObjectivesComplete | daln_config.py:16-22 | Every learning objective appears in the member list |
| Vocabulary.ObjectiveFromTag | daln_config.py:16-22 | Decoding a string yields an objective whose tag is that string, and fails exactly when no objective has that tag |
| Vocabulary.ObjectiveTagInjective | daln_config.py:16-22 | Two objectives have the same tag if and only if they are the same objective |
| Vocabulary.ObjectiveRoundTrip | daln_config.py:16-22 | Decoding an objective's tag gives back that objective |
| Vocabulary.ObjectiveDecodesOnlyDeclaredTags | daln_config.py:18-22 | A string decodes to an objective if and only if it is one of the five declared tags |
| Vocabulary.AllProtocolsComplete | daln_config.py:24-29 | Every sharing protocol appears in the member list |
| Vocabulary.ProtocolFromTag | daln_config.py:24-29 | Decoding a string yields a protocol whose tag is that string, and fails exactly when no protocol has that tag |
| Vocabulary.ProtocolTagInjective | daln_config.py:24-29 | Two protocols have the same tag if and only if they are the same protocol |
| Vocabulary.ProtocolRoundTrip | daln_config.py:24-29 | Decoding a protocol's tag gives back that protocol |
| Vocabulary.ProtocolDecodesOnlyDeclaredTags | daln_config.py:26-29 | A string decodes to a protocol if and only if it is one of the four declared tags |
| Vocabulary.UndeclaredTagsRejected | daln_config.py:16-29 | Example undeclared strings, the empty string among them, are rejected by both decoders |
| Vocabulary.ProtocolTagsAreNotObjectives | daln_config.py:16-29 | No sharing-protocol tag decodes as a learning objective |
| Vocabulary.ObjectiveTagsAreNotProtocols | daln_config.py:16-29 | No learning-objective tag decodes as a sharing protocol |
| NodeConfigs.Validate | daln_config.py:43-53 | Passes exactly when no condition is violated; on failure the reported condition is violated and every other violated condition is checked later |
| NodeConfigs.ValidateIffAllHold | daln_config.py:43-53 | Passes if and only if the id is non-empty, the objectives are non-empty, 0 < budget <= 10 and minimum peers >= 1 |
| NodeConfigs.ValidateFailsExactlyOnViolation | daln_config.py:45-52 | Fails with a given condition if and only if that condition is violated and no earlier-checked condition is |
| NodeConfigs.EmptyIdReportedFirst | daln_config.py:45-46 | An empty id is reported whatever the other fields hold |
| NodeConfigs.NoObjectivesReportedBeforeNumbers | daln_config.py:47-48 | With a non-empty id, missing objectives are reported ahead of budget or peer errors |
| NodeConfigs.BudgetReportedBeforePeers | daln_config.py:49-52 | With id and objectives present, a bad budget is reported ahead of a bad peer count |
| NodeConfigs.PrivacyBudgetBounds | daln_config.py:49-50 | Budget 0, any negative budget and any budget above 10 fail; budget 10 passes |
| NodeConfigs.MinimumPeersBounds | daln_config.py:51-52 | A minimum of 1 peer passes; 0 or any negative count fails |
| NodeConfigs.ValidateIgnoresTuningFields | daln_config.py:43-53 | Changing only data sources, epochs, batch size or protocol never changes the outcome |
| NodeConfigs.NodeConfigDefaults | daln_config.py:37-41 | A record built from the required fields has budget 1.0, 3 peers, 10 epochs, batch 32 and federated averaging |
| NodeConfigs.DefaultNodeConfigValidates | daln_config.py:34-53 | Such a record validates whenever its id and objectives are non-empty |
| NodeConfigs.ExampleNodeValidates | daln_config.py:32-53 | A node with two objectives, budget 2.5 and 5 peers validates and keeps batch size 32 |
| NetworkConfigs.NetworkConfigDefaults | daln_config.py:58-62 | A record built from the backing-store settings has no bootstrap nodes, interval 300, retention 30 and a 10 MiB message ceiling |

## Left out

- Loading environment variables at import time (daln_config.py:14): environment and file I/O.
- The `os`, `json`, `logging` and `yaml` imports: nothing in the file uses them.
- The text of each `ValueError` message: an error is modelled only by which condition failed, and raising is modelled by the `Fail` outcome.
- Floating point: the privacy budget is a `real`. The source only compares it, so finite values behave the same. NaN and positive or negative infinity are not modelled: in the source a NaN budget passes both comparisons and is accepted, while infinity fails `> 10` and negative infinity fails `<= 0`.
- Runtime types: the model assumes each field holds its declared type. The source does not check types, so a record holding, say, `None` as its id is outside the model.
- Enumeration lookup by member name or by passing a member itself: only lookup by string value is modelled.
- `validate` leaving the record unchanged: `Validate` is a function of an immutable value, so this holds by construction and has no lemma of its own.
- The shape of the backing-store settings in `NetworkConfig`: it belongs to an external service and is a type parameter here.
- Serialising a whole record to a mapping and back: the source has no such operation.
- Validation at construction and any validation of `NetworkConfig`: the source has neither.
