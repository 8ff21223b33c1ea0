# Online shot clustering engine, modelled in Dafny

This project models `ClusteringEngine`, the online clustering engine of a film asset manager.
The engine groups video shots as they arrive, using only their feature vectors. It owns three pieces of state:

- a scene index: one vector per shot, with metadata holding the shot's group (`cluster_id`);
- a character index: one vector per detected face, tagged with its shot's group (`scene_cluster_id`);
- a noise bucket: an in-memory list of shots that joined nothing and were indexed nowhere.

A new shot is compared with its nearest neighbour in the scene index.
With similarity `1 - distance` at or above the scene threshold (0.85 by default), the shot joins that neighbour.
Below the noise threshold (0.5), it is parked in the noise bucket.
Otherwise, or when the index is empty, it starts a new group `scene_` + 8 characters.
Any fault of the index parks the shot with similarity 0.0.
A parked shot can later be moved into a group chosen by the caller.
The catalog view rebuilds the groups by grouping index entries on their stored group id.

Files:

- `wrappers.dfy`: `Option` and `Result`.
- `similarity.dfy` (module `Cosine`): the cosine similarity's zero-norm guard. Norms are parameters, tied to the exact dot product.
- `records.dfy` (module `Records`): index entries, their metadata, noise items, and the character ids `<shot>_char_<i>`.
- `catalog.dfy` (module `ClusterCatalog`): `get_all_clusters` as a fold over an index, with the partition lemmas.
- `engine.dfy` (module `Engine`): the class `ClusteringEngine`, the threshold policy, and lemmas linking the operations to the catalog.
- `scenarios.dfy`: two clients that follow shots through the engine.

The nearest-neighbour answer, the fresh ids, the clock and the index's faults are parameters of the operations:

- `nearest: Option<Neighbour>` must be `None` exactly when the scene index is empty, and must otherwise name an entry of it.
- `fault: Fault` names the call that raises: the query, the scene add, or the add of the k-th face.

The class invariant `Valid()` says that every character entry has a scene entry of the same shot under the same group.
Every operation keeps it.

## Where the code differs from what one might expect

The model follows the code in each of these cases.

- **Join records the neighbour's id.** The join branch stores and returns the nearest entry's id, which is a shot id, as the group id. It does not use that entry's `cluster_id`. So a joining shot is not listed beside its neighbour: it opens (or joins) a group named after the neighbour's shot id. `Engine.JoinGroupsUnderNeighbourId` and `Scenarios.TwoShotCatalog` show this. With default thresholds, a shot with similarity 0.9 to the group's first shot gives two groups `{scene_aaaaaaaa: [s0], s0: [s1]}`, not one.
- **A late fault leaves a shot in two places.** One `except` covers the whole assignment, including the scene add and the face adds. A fault raised by a face add, after the scene add succeeded, parks the shot, yet its scene entry stays indexed. A later move adds the same id again (`Scenarios.LateFault`). The model keeps both entries; what the store does with a repeated id is not modelled. A shot is therefore not always in exactly one of the two places.
- **Catalog key.** The key is `cluster_id or scene_cluster_id`. An empty `cluster_id` is false for `or`, so a scene entry moved to the target `""` is grouped under no id (`None`).
- **Noise bucket order.** The noise bucket is an ordered list, and a move removes the first item with the given shot id.

## Model

| member | source | states |
|---|---|---|
| `Cosine.CosineSimilarity` | backend/services/clustering_engine.py:38-49 | If either norm is zero the result is 0.0 (no division). Otherwise the result times the product of the norms is the dot product. |
| `Cosine.SelfSimilarity` | backend/services/clustering_engine.py:38-49 | A non-zero vector has similarity 1.0 with itself. |
| `Cosine.OppositeSimilarity` | backend/services/clustering_engine.py:38-49 | A non-zero vector has similarity -1.0 with its negation, which has the same norm. |
| `Cosine.ZeroSimilarity` | backend/services/clustering_engine.py:46-47 | Comparing any vector with the zero vector gives 0.0 and does not fail. |
| `Records.Decimal` | backend/services/clustering_engine.py:168 | The numeral of a face index is a non-empty string of digits, one digit long exactly when the index is below 10. |
| `Records.DecimalRoundTrip` | backend/services/clustering_engine.py:168 | Reading the numeral of a face index back as a decimal number gives the index. |
| `Records.DecimalInjective` | backend/services/clustering_engine.py:168 | Different indices give different numerals. |
| `Records.CharId` | backend/services/clustering_engine.py:168 | A face id splits into the shot id, the separator `_char_` and the numeral of the face index. |
| `Records.CharIdInjective` | backend/services/clustering_engine.py:168 | Within one shot, `<shot>_char_<i>` determines i. |
| `Records.SceneEntry` | backend/services/clustering_engine.py:72-81 | The scene entry is stored under the shot's id with its vector. Its metadata has the resolved group as `cluster_id`, the similarity, the keyframe and the time. It has no face-only keys and is not marked as moved. The new-group branch writes the same keys with the minted id and 1.0. |
| `Records.MovedEntry` | backend/services/clustering_engine.py:221-231 | The entry written by a move is stored under the shot's id with the parked scene vector. Its metadata has the target as `cluster_id`, similarity 1.0, the parked keyframe, the time, and `moved_from_noise` set. |
| `Records.CharacterEntry` | backend/services/clustering_engine.py:167-180 | The face entry is stored under `<shot>_char_<i>` with its vector. Its metadata has the owning shot, the shot's group as `scene_cluster_id`, the index i, the keyframe and the time. It has no `cluster_id` or similarity. |
| `Records.CharacterEntries` | backend/services/clustering_engine.py:167-180 | One entry per face vector, in list order. Entry i has id `<shot>_char_<i>`, the i-th vector, the owning shot id, the given group as `scene_cluster_id`, `character_index` i, and no `cluster_id`. |
| `Records.CharacterIdsDistinct` | backend/services/clustering_engine.py:167-168 | No two face entries of one shot share an id. |
| `ClusterCatalog.GroupKey` | backend/services/clustering_engine.py:191 | The key is the cluster id or the scene cluster id. A non-empty cluster id always wins; the scene cluster id is used exactly when the cluster id is missing or empty. |
| `ClusterCatalog.View` | backend/services/clustering_engine.py:199-204 | A listed member shows the entry's id, keyframe, similarity and timestamp. |
| `ClusterCatalog.KeyIndex` | backend/services/clustering_engine.py:193 | The lookup finds a group with the key exactly when one exists, and the group it returns has that key. |
| `ClusterCatalog.KeyIndexFirst` | backend/services/clustering_engine.py:193 | A key found by the lookup does not occur in any earlier group. |
| `ClusterCatalog.InsertPlacesEntry` | backend/services/clustering_engine.py:193-204 | One step of the grouping loop (`Insert`) keeps every existing group's key and changes no group with another key. The entry's view becomes the last member of the group with its key. That group is new, at the end, exactly when the key was absent. |
| `ClusterCatalog.Catalog` | backend/services/clustering_engine.py:182-206 | Group keys are distinct. The member count equals the number of entries. A key is present exactly when some entry carries it. |
| `ClusterCatalog.CatalogGroupIsMembers` | backend/services/clustering_engine.py:190-204 | Each group holds exactly the views of the entries carrying its key, in index order (the reference filter `Members`). |
| `ClusterCatalog.CatalogCoversEntry` | backend/services/clustering_engine.py:190-204 | Every entry is listed in the group for its own key. Keys are distinct, so that group is its only group. |
| `ClusterCatalog.CatalogIdsInOneGroup` | backend/services/clustering_engine.py:190-204 | If no id occurs twice in the index, no id appears under two groups. |
| `ClusterCatalog.CatalogAppendNewKey` | backend/services/clustering_engine.py:193-199 | An entry with a key not yet present adds a one-member group at the end and changes nothing else. |
| `ClusterCatalog.CatalogAppendExistingKey` | backend/services/clustering_engine.py:193-204 | An entry with a present key is appended to the end of that group, and no other group changes. |
| `Engine.Similarity` | backend/services/clustering_engine.py:66-67 | The cosine distance reported by the index is 1 minus the similarity derived from it. |
| `Engine.Decide` | backend/services/clustering_engine.py:65-114 | Join exactly when there is a neighbour and the similarity reaches the scene threshold; the decision carries the neighbour's id and the similarity. Park exactly when there is a neighbour and the similarity is below both thresholds (the scene test comes first). Start a group exactly when there is no neighbour or the similarity lies from the noise threshold up to, but excluding, the scene threshold. |
| `Engine.FaultResult` | backend/services/clustering_engine.py:153-158 | A shot whose assignment raised is reported as noise in `noise_bucket` with similarity 0.0, under its own id. |
| `Engine.FirstIndexOf` | backend/services/clustering_engine.py:213-216 | Returns the position of the first noise item with the shot id, or `None` exactly when no item has it. |
| `Engine.ParentsIndexedGrowScenes` | backend/services/clustering_engine.py:72-81 | Adding scene entries keeps every face tied to a scene entry of its shot with the same group. |
| `Engine.ParentsIndexedGrowChars` | backend/services/clustering_engine.py:160-180 | Adding any prefix of a shot's face entries, when the shot's scene entry is indexed under the same group, keeps every face tied to its parent. |
| `Engine.StartedGroupHoldsOnlyTheShot` | backend/services/clustering_engine.py:114-125 | A shot that starts a group under an unused minted id gets a group of its own, holding only itself, with similarity 1.0. |
| `Engine.JoinGroupsUnderNeighbourId` | backend/services/clustering_engine.py:69-81 | Unless the neighbour is itself grouped under its own id, a joining shot is grouped under the neighbour's shot id, not the neighbour's key, and the catalog lists it there. This holds for every shot that joins the same neighbour. When that id is still unused, the shot opens a one-member group at the end. |
| `Engine.MovedShotListedUnderTarget` | backend/services/clustering_engine.py:221-231 | After a move to a non-empty target, the scene view lists the shot in the target's group, with similarity 1.0. |
| `Engine.FaceGroupedUnderShotGroup` | backend/services/clustering_engine.py:170-180 | In the character view, every face is grouped under the group its shot was resolved to. |
| `Engine.ClusteringEngine.constructor` | backend/services/clustering_engine.py:9-36 | Keeps the two thresholds, which default to 0.85 and 0.5, and starts with both indices and the noise bucket empty. |
| `Engine.ClusteringEngine.AssignCharacterCluster` | backend/services/clustering_engine.py:160-180 | Appends the shot's face entries in order and touches nothing else. A fault at the k-th add leaves exactly the first k entries and is reported. |
| `Engine.ClusteringEngine.ParkAfterFault` | backend/services/clustering_engine.py:142-158 | Appends the shot to the noise bucket and reports noise, `noise_bucket`, similarity 0.0. |
| `Engine.ClusteringEngine.Place` | backend/services/clustering_engine.py:72-96 | Indexes a shot under a resolved group: one scene entry, then its faces. A fault in the scene add indexes nothing and parks the shot. A fault in a face add keeps the scene entry and earlier faces and also parks the shot. |
| `Engine.ClusteringEngine.AssignToCluster` | backend/services/clustering_engine.py:51-158 | Covers each branch: a query fault; the noise branch (bucket grows by one at its end, indices unchanged, result carries the similarity); and join or new-group (one scene entry with the neighbour's id and similarity, or the minted id and 1.0, plus the faces). A shot always ends up indexed, parked, or, after a late fault, both. |
| `Engine.ClusteringEngine.GetAllClusters` | backend/services/clustering_engine.py:182-206 | Returns the catalog of the scene index for view `"scene"`, the default view, and of the character index for any other view. Changes nothing. |
| `Engine.ClusteringEngine.GetNoiseBucket` | backend/services/clustering_engine.py:208-209 | Returns the noise bucket as it stands. |
| `Engine.ClusteringEngine.TakeFromNoise` | backend/services/clustering_engine.py:212-216 | Removes only the first item with the shot id; the others keep their order. It returns that item, or leaves the bucket unchanged when no item has the id. |
| `Engine.ClusteringEngine.MoveShotToCluster` | backend/services/clustering_engine.py:211-245 | An id absent from the bucket gives `NotFound`, and nothing changes. Otherwise the first such item leaves the bucket, its scene vector is indexed under the target (existence not checked) with similarity 1.0 and the moved flag, its faces are tagged with the target, and the result echoes shot and target. |
| `Scenarios.TwoShotCatalog` | backend/services/clustering_engine.py:69-77 | In the two-shot example, a group's first shot `s0` (group `scene_aaaaaaaa`) and a shot `s1` that joined it as its neighbour are listed in two different groups, `scene_aaaaaaaa` and `s0`. `Engine.JoinGroupsUnderNeighbourId` states this for every joining shot. |

## Left out

- Opening or creating the two persistent collections (backend/services/clustering_engine.py:10-29): the engine starts with both indices empty, and contents persisted by an earlier process are not modelled.
- The approximate nearest-neighbour search: its answer is a parameter that must be empty exactly for an empty index and must otherwise name an indexed entry. That it is really the nearest is not modelled.
- Floating point: similarities, distances and thresholds are exact reals, and `float()` conversions are identities.
- The numeric body of the cosine similarity: square roots are not available, so each norm is a parameter stated to be the non-negative root of the vector's dot product with itself. The assignment does not call this function.
- `uuid.uuid4()` and `datetime.now()`: the shot id, the eight characters of a minted group id and one timestamp per call are parameters. The code reads the clock once per record written.
- Faults: one `Fault` value names where the index raises (query, scene add, or the k-th face add). Faults elsewhere inside the `try` block are not told apart from a query fault.
- Engine.ClusteringEngine.MoveShotToCluster: a fault raised by the index during a move is not modelled. In the code it propagates after the item has left the bucket.
- Adding an id the index already holds (possible after a late fault and a move) is modelled as a second entry. How the underlying store treats a duplicate id is not modelled.
- `get_noise_bucket` returns the list object itself, so a caller could mutate it. The model returns its value, and aliasing is not captured.
- `self.clusters` and `character_threshold` are never read by the engine and are not modelled.
- `print` logging and the `async` keyword (the operations run to completion one at a time).
- The training pair written after a move is built by the HTTP handler in backend/main.py, not by the engine. backend/main.py, backend/services/storage_service.py, backend/services/embedding_engine.py, backend/services/keyframe_extractor.py, backend/test_api.py and the TypeScript user interface under src/ are not part of this model.
