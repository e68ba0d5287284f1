# Graph configuration reconciler (mgmt `gconfig`)

This project models how mgmt turns a graph configuration document into the resource graph it
runs. The modelled code is `GraphConfig.Parse`, which checks a decoded document, and
`GraphConfig.NewGraphFromConfig`, the reconciler. One reconciler pass does the following:

1. Refuses a document without a host name.
2. Takes a fresh graph, or a copy of the running graph that shares its vertex objects, and names it
   after the document.
3. Walks the declared resources field by field (Noop, Pkg, File, Svc, Exec, Timer, Msg):
   - a resource whose name has no `@@` marker reuses a matching vertex, or is initialised and
     added as a new vertex; it is recorded in the `kind -> name -> vertex` lookup table and in the
     keep list;
   - a marked resource is queued for export with the marker cut off and its kind set, unless the
     pass is a no-op pass;
   - every kind that declares anything gets a lookup entry, made before the marker test, so a kind
     whose resources are all marked is known to the edge checks but has no names.
4. Writes the export batch to the distributed store under the host name, even when it is empty.
5. Reads back, in one query, the stored resources of the kinds the collector rules name, if there
   are any rules. Each returned resource goes through every rule that takes it and gets the
   same reuse-or-create, lookup and keep treatment.
6. Tells every vertex that is not kept to exit, then deletes it.
7. Resolves the declared edges through the lookup table, checking from-kind, to-kind, from-name
   and to-name in that order; each failed check is its own error and ends the pass.

Files:
- `wrappers.dfy`: `Option` and `Result`.
- `resources.dfy`: the resource record, the `@@` marker and `FirstToUpper`.
- `pgraph.dfy`: the `Vertex` and `Graph` classes with the graph operations the reconciler calls.
- `etcd.dfy`: the `Store` class, a map from host to the resources that host exports.
- `gconfig.dfy`: the document records, `Parse`, the specification functions and the reconciler.

How the model is stated:
- The graph is a class whose methods update its vertex set and edge set in place.
- The reconciler is a method with the source's loops. Each loop is proved against specification
  functions:
  - `DeclaredShape` is the kinds and names the declared resources put in the lookup table;
  - `ExportsOf` is the export batch;
  - `SetShape(Stored(...))` is what collection adds to the table;
  - `FirstEdgeError` is the outcome of edge resolution;
  - `ResolvedEdges` is the edges added;
  - `PruneLog` is the exit and delete events.
- The effects that have no state in the model are returned as a trace of `Event`s:
  - a resource being initialised;
  - the store query;
  - the exit signal;
  - the deletion.

## Model

| member | source | states |
|---|---|---|
| GConfig.Parse | gconfig/gconfig.go:75-83 | a decoded document is accepted exactly when it names its graph; a decoding error is passed on and an empty `graph` is refused |
| GConfig.DeclaredKinds | gconfig/gconfig.go:126-139 | a document's declarations are exactly its listed resources, each tagged with the name of the field it is listed in: the seven field names are already capitalised, so `FirstToUpper` leaves each one as the kind |
| GConfig.DeclaredStep | gconfig/gconfig.go:128-139 | the declarations of the first i+1 fields are those of the first i followed by field i's resources, in list order, each tagged with the field's kind |
| GConfig.DeclaredMembers | gconfig/gconfig.go:128-139 | a declaration is exactly a resource listed in some field, tagged with that field's kind |
| Resources.FirstToUpper | gconfig/gconfig.go:134 | the kind name keeps its length and its tail, its first letter is the ASCII upper case of the original one and no longer lower case, and the name is unchanged exactly when it did not start with a lower-case letter |
| Resources.ExportedIsPrefixed | gconfig/gconfig.go:152 | a name is marked for export exactly when it is the `@@` marker followed by something |
| Resources.Unmarked | gconfig/gconfig.go:167 | the published name is the declared name with the two-character `@@` marker removed |
| GConfig.WithNoop | gconfig/gconfig.go:144-146 | a declared resource keeps its kind, name, parameters and collect pattern, and is no-op when the pass is no-op or it already was |
| GConfig.Export | gconfig/gconfig.go:165-170 | an exported resource is named by the marked name minus the marker, carries its field's kind, and keeps its no-op flag, parameters and collect pattern |
| GConfig.ExportsOfMembers | gconfig/gconfig.go:165-170 | the export batch holds exactly the exports of the marked declarations |
| GConfig.ExportedFromMarked | gconfig/gconfig.go:165-170 | everything written to the store comes from a declaration of the same kind named with the marker, and nothing is written by a no-op pass |
| GConfig.MarkedIsExported | gconfig/gconfig.go:165-170 | every marked declaration is exported unless the pass is no-op |
| GConfig.ExportsOfAppend | gconfig/gconfig.go:165-170 | the batch keeps declaration order: the exports of two lists joined are the exports of each, joined |
| PGraph.Vertex.constructor | gconfig/gconfig.go:159 | a new vertex wraps the resource it was made for |
| PGraph.Graph.constructor | gconfig/gconfig.go:111 | a new graph has the given name and no vertices or edges |
| PGraph.Graph.Copy | gconfig/gconfig.go:113 | the copy is a fresh graph with the same name, vertex objects and edges |
| PGraph.Graph.SetName | gconfig/gconfig.go:121 | only the name changes |
| PGraph.Graph.AddVertex | gconfig/gconfig.go:160 | the vertex joins the vertex set; nothing else changes |
| PGraph.Graph.DeleteVertex | gconfig/gconfig.go:248 | the vertex and every edge touching it are removed; the graph stays well formed |
| PGraph.Graph.AddEdge | gconfig/gconfig.go:265 | the labelled edge is added and its end points become vertices |
| PGraph.Graph.GetVertexMatch | gconfig/gconfig.go:156-157 | the result is a vertex of the graph whose resource matches, and it is null exactly when no vertex matches |
| Etcd.Store.SetResources | gconfig/gconfig.go:174-176 | on success the host's entry is replaced by the batch; on failure the store is unchanged |
| Etcd.Store.GetResources | gconfig/gconfig.go:188-194 | on success the result holds exactly the stored resources of the selected hosts and kinds; on failure it is empty |
| GConfig.VertexFor | gconfig/gconfig.go:156-161 | a matching vertex is reused with the graph unchanged; otherwise, and exactly when none matches, one fresh vertex for the resource is added |
| GConfig.Record | gconfig/gconfig.go:156-163 | the vertex recorded under the kind and name is a matching vertex of the graph when there is one, with the graph and the initialised list unchanged; otherwise a new vertex wrapping the resource, added and initialised; either way it is appended to keep, and `created` holds exactly when nothing matched |
| GConfig.NoneReinitializedStep | gconfig/gconfig.go:156-161 | recording a resource creates a vertex only when no vertex of the graph matches it, so a created vertex matches no vertex initialised before it |
| GConfig.NoDuplicateInits | gconfig/gconfig.go:156-234 | when the comparison matches every resource with itself, no two vertices initialised in a pass wrap the same resource |
| GConfig.ClassifyOne | gconfig/gconfig.go:144-170 | an unmarked declaration's name maps to the vertex `Record` chose for the resource with the no-op override: a matching vertex of the graph when there is one, with nothing initialised, otherwise a new vertex wrapping it, added and initialised; the table changes only at that kind and name, and that vertex is appended to keep. A marked declaration changes no vertex, keep or initialised list, and the table only gains the kind. Either way keep grows by exactly what `Local` says the declaration hands to the graph, place by place (`Aligned`), and `Classified` (lookup shape, export batch, keep list, new vertices' origins, entry targets) holds for the declarations so far plus this one |
| GConfig.ClassifyLocal | gconfig/gconfig.go:152-163 | the body for an unmarked declaration: the vertex recorded is the one `Record` settles on, the table changes only at the declaration's kind and name, keep gains that one vertex standing for the declaration, and `Classified` is kept |
| GConfig.ClassifyField | gconfig/gconfig.go:138-171 | handling one field's list keeps `Classified` for the declarations so far plus the field's (shape, batch, origins, entry targets, and no new vertex matching a starting one), and keep grows by exactly one vertex per unmarked entry of the field, in list order, each standing for that entry under the no-op override (`Aligned` with `Locals`); and each vertex created matches no vertex created before it in the pass (`NoneReinitialized` over the initialisations) |
| GConfig.Classify | gconfig/gconfig.go:126-172 | the lookup table has `DeclaredShape`: every declared kind, with exactly the unmarked names; the batch is `ExportsOf` the declarations, or empty under noop; every new vertex is fresh, kept, initialised once, and wraps an unmarked declaration; every entry wraps or matches an unmarked declaration of its kind and name, and no new vertex matches a vertex the graph had before; keep is, place by place, a vertex standing for each unmarked declaration in declaration order (`Aligned(keep, Locals(...))`); each vertex it creates matches no vertex it created before, so a declaration matching an earlier one reuses that vertex (`NoneReinitialized`) |
| GConfig.LocalStep | gconfig/gconfig.go:152-163 | an unmarked declaration adds its kind and name to the lookup and its vertex to keep, and leaves the exports alone |
| GConfig.LocalKeep | gconfig/gconfig.go:162-163 | recording an unmarked declaration's vertex changes the table only at its kind and name, and appends to keep one vertex standing for what the declaration hands to the graph |
| GConfig.LocalsMembers | gconfig/gconfig.go:152-163 | the resources the declarations hand to the graph are exactly the unmarked declarations' resources under the no-op override |
| GConfig.LocalsAppend | gconfig/gconfig.go:128-172 | what two runs of declarations hand to the graph is what each hands, in order |
| GConfig.FieldKeep | gconfig/gconfig.go:138-171 | one more entry of a field extends keep in line with what the field's entries so far hand to the graph |
| GConfig.DeclaredKeep | gconfig/gconfig.go:128-172 | one more field extends keep in line with what the declarations of the fields so far hand to the graph |
| GConfig.AlignedAt | gconfig/gconfig.go:163 | in a keep list aligned with a list of resources, the vertex at each place stands for the resource at that place |
| GConfig.AlignedAppend | gconfig/gconfig.go:163 | appending a run of vertices aligned with a run of resources keeps keep aligned with the joined resources |
| GConfig.MarkedStep | gconfig/gconfig.go:165-170 | a marked declaration adds only its kind to the lookup, and its export unless noop |
| GConfig.DeclReuseStep | gconfig/gconfig.go:152-163 | recording the vertex of an unmarked declaration keeps every entry standing for a declaration of its kind and name, and keeps new vertices from matching starting ones |
| GConfig.DeclReuseMarked | gconfig/gconfig.go:165-170 | a marked declaration leaves every entry standing for a declaration of its kind and name |
| GConfig.KeepStep | gconfig/gconfig.go:162-163 | recording a found or created vertex keeps the bookkeeping: the lookup points only at kept vertices, kept vertices are in the graph, and each new vertex is initialised exactly once |
| GConfig.KindFilter | gconfig/gconfig.go:179-185 | the query's kinds are the rules' kinds upper-cased, in rule order; as a set they are the kinds the rules collect |
| GConfig.CollectedIsStored | gconfig/gconfig.go:179-194 | the one query returns exactly the stored resources, on any host, of a collected kind |
| GConfig.NothingCollected | gconfig/gconfig.go:188-195 | without collector rules nothing is collected, even though the list still holds the export batch |
| GConfig.Query | gconfig/gconfig.go:178-194 | the store is queried exactly when there are collector rules, once, for exactly the rules' kinds; only a query can fail; on success the resources the rules can take are exactly the stored resources of the rules' kinds |
| GConfig.CollectUnder | gconfig/gconfig.go:215-237 | the resource keeps its kind, name and parameters, is no-op when the pass is or it was, and takes the rule's pattern when that is non-empty, keeping its own otherwise (`Retag`); its name under the rule's kind maps to a matching vertex of the graph when there is one, with nothing initialised, otherwise to a new vertex wrapping it, added and initialised; the table changes only at that kind and name; that vertex is appended to keep (`Took`), and the collection bookkeeping holds for the resources taken so far |
| GConfig.CollectRecord | gconfig/gconfig.go:226-237 | the find-or-create and recording of a taken resource: `Took` holds for it, the new vertices are fresh, and the collection bookkeeping holds with the resource added to those taken; a vertex it creates matches no vertex created earlier in the walk |
| GConfig.RecordTook | gconfig/gconfig.go:227-237 | inserting the kind's entry if missing and then the name is, over the table as it was, an update at that kind and name only |
| GConfig.TookOne | gconfig/gconfig.go:236-237 | a rule that takes a resource appends to keep exactly one vertex, standing for the resource as that rule left it |
| GConfig.CollReuseStep | gconfig/gconfig.go:227-237 | recording a collected resource's vertex keeps every entry either as it was after the declarations or standing for a collected resource of its kind and name, as the rules changed it |
| GConfig.CollectRule | gconfig/gconfig.go:198-238 | one rule against one returned resource: a rule of another kind changes nothing; a rule of its kind is `CollectUnder`, so `Took` holds: the resource is retagged, its vertex is the reused match or a new one, the table changes only at that kind and name, and keep gains that vertex; the bookkeeping then holds for the rules so far plus this one |
| GConfig.RetagStep | gconfig/gconfig.go:215-222 | after a rule that takes it, the resource is no-op if the pass is, and carries the pattern of a rule that takes it or its own |
| GConfig.CollectOne | gconfig/gconfig.go:198-240 | one returned resource, run through every rule, ends up in the lookup exactly when some rule takes it; keep grows by exactly one vertex per rule that takes it, in rule order, each standing for the resource as the rules up to that one left it (`Aligned` with `Handed`); every entry is as the declarations left it or wraps or matches a collected resource of its kind and name as the rules changed it; no new vertex matches a starting one; a vertex created for a later rule's version of the resource matches no vertex created earlier in the walk (`NoneReinitialized`) |
| GConfig.RuleKeep | gconfig/gconfig.go:198-238 | after one more rule the resource is what `Retagged` says, and keep stays in line with `Handed` |
| GConfig.ResourceKeep | gconfig/gconfig.go:195-241 | after one more returned resource keep stays in line with `HandedAll` |
| GConfig.HandedHas | gconfig/gconfig.go:198-238 | for each rule that takes a resource, what the rules hand to the graph holds the resource as the rules up to that one leave it |
| GConfig.HandedIn | gconfig/gconfig.go:198-238 | and it holds nothing else: each element is the resource as the rules up to some rule taking it leave it |
| GConfig.HandedAllHas | gconfig/gconfig.go:195-241 | what collection hands to the graph holds what the rules hand over for each returned resource |
| GConfig.HandedAllIn | gconfig/gconfig.go:195-241 | and nothing that the rules do not hand over for some returned resource |
| GConfig.Collect | gconfig/gconfig.go:195-241 | the lookup's shape becomes the declared shape merged with the kinds and names of the collectable resources; every new vertex is fresh, kept, initialised once, and wraps a collected resource as changed by the rules; every entry is as the declarations left it or wraps or matches such a collected resource of its kind and name; no new vertex matches a vertex the graph had before; keep gains, place by place, one vertex per returned resource and rule taking it (`Aligned` with `HandedAll`); each vertex it creates matches no vertex it created before (`NoneReinitialized`), so the same resource stored by two hosts gets one vertex when the comparison matches it with itself |
| GConfig.ExtendsShape | gconfig/gconfig.go:227-236 | a lookup extended by a set of resources has the merged shape |
| GConfig.Prune | gconfig/gconfig.go:244-250 | the remaining vertices are exactly the kept ones; the edges are those between kept vertices; the removed vertices are exactly the unkept ones, each once, and each is told to exit just before it is deleted |
| GConfig.PruneLogFacts | gconfig/gconfig.go:244-250 | pruning distinct vertices sends each exactly one exit, always right before its deletion, and touches no other vertex |
| GConfig.PruneDone | gconfig/gconfig.go:244-250 | once every vertex has been visited, the remaining vertices and edges are exactly those between kept vertices |
| GConfig.Resolve | gconfig/gconfig.go:253-265 | an edge resolves exactly when all four checks pass, and then it joins the two looked-up vertices under the declared label |
| GConfig.FirstEdgeErrorNone | gconfig/gconfig.go:252-266 | edge resolution succeeds exactly when every edge passes its checks |
| GConfig.FirstEdgeErrorIsFirst | gconfig/gconfig.go:252-266 | a failure is the failed check of the first edge that does not resolve, and all edges before it resolve |
| GConfig.FirstEdgeErrorSticks | gconfig/gconfig.go:252-266 | once an edge fails, the later edges do not change the outcome |
| GConfig.FirstEdgeErrorWithin | gconfig/gconfig.go:253-264 | edges that all pass the four checks against a table still all pass against any table with at least its kinds and names |
| GConfig.LocalEdgesResolve | gconfig/gconfig.go:253-264 | edges between declared resources keep resolving once the collected resources are added to the table |
| GConfig.ResolvedTargets | gconfig/gconfig.go:253-265 | when every lookup entry stands for a declaration or stored resource of its kind and name, each resolved edge carries its declaration's label and joins vertices that wrap or match resources of the kinds and names that declaration gives |
| GConfig.AttachOne | gconfig/gconfig.go:253-265 | the result is the first failing check in the order from-kind, to-kind, from-name, to-name; on failure no edge is added, otherwise exactly the resolved edge |
| GConfig.AttachEdges | gconfig/gconfig.go:252-266 | the outcome is the first failing check over the edges in order; on success exactly the resolved edges are added; vertices are unchanged |
| GConfig.GatherTrace | gconfig/gconfig.go:156-194 | up to the end of collection every added vertex is initialised exactly once, no other vertex is, and the trace holds at most one query; no vertex initialised matches one initialised before it, across both walks |
| GConfig.NoneReinitializedJoin | gconfig/gconfig.go:156-234 | the declared walk's initialisations, the query and collection's initialisations together keep every initialised vertex from matching an earlier one, since collection creates only vertices that match nothing in the graph it started from |
| GConfig.QueriedIn | gconfig/gconfig.go:186-194 | the trace holds a query exactly when the query step made one |
| GConfig.OneQueryOf | gconfig/gconfig.go:186-194 | a trace of non-query events around at most one query holds at most one query |
| GConfig.GatherReuse | gconfig/gconfig.go:156-237 | after both walks, every entry wraps or matches a declaration or a stored resource of its kind and name, and no vertex either walk added matches a starting vertex |
| GConfig.NewAreKept | gconfig/gconfig.go:163 | every vertex added by either walk is kept, so pruning removes only vertices of the starting graph |
| GConfig.KeepAccounted | gconfig/gconfig.go:156-237 | every vertex of the pass's keep list stands for an unmarked declaration under the no-op override, or for a stored resource of a collected kind as the rules up to one taking it leave it |
| GConfig.KeepHasLocal | gconfig/gconfig.go:162-163 | the keep list has a vertex standing for every unmarked declaration |
| GConfig.KeepHasHanded | gconfig/gconfig.go:236-237 | the keep list has a vertex standing for every returned resource and every rule that takes it, as the rules up to that one leave it |
| GConfig.PassKeep | gconfig/gconfig.go:123-241 | over the whole pass, the keep list holds only vertices accounted for by a declaration or a stored resource and rule (`Accounted`), and one for each of them (`Covered`) |
| GConfig.PruneTrace | gconfig/gconfig.go:244-250 | after pruning, exactly the starting vertices that were not kept have been told to exit and deleted, with each exit just before its deletion; the graph holds exactly the kept vertices; there is still at most one query |
| GConfig.NoneReinitializedPrune | gconfig/gconfig.go:243-250 | pruning initialises nothing, so no initialised vertex matches an earlier one still holds |
| GConfig.Gather | gconfig/gconfig.go:123-241 | a failed export leaves the store unchanged and runs no query; otherwise the store holds the batch under the host; a query is made exactly when there are rules, at most once, for the rules' kinds; a complete walk gives a lookup of `ExpectedShape` whose every entry wraps or matches a declaration or stored resource of its kind and name, no new vertex matches a vertex the graph had, and keep is aligned with what the declarations and then the returned resources hand to the graph, where the returned resources the rules can take are exactly the stored ones of the rules' kinds; on every path no vertex initialised in the pass matches one initialised before it |
| GConfig.Settle | gconfig/gconfig.go:243-266 | pruning then edges: the outcome is `FirstEdgeError` of the lookup; exactly the dropped starting vertices are exited and deleted; the trace keeps at most one query; on success the graph holds exactly the kept vertices, the surviving edges and the resolved ones; pruning keeps the rule that no initialised vertex matches an earlier one |
| GConfig.NewGraphFromConfig | gconfig/gconfig.go:104-269 | the whole pass. An empty host name fails with no store write and no events. The store holds this host's batch unless the export failed. There is at most one query, for the rules' kinds. A failure before pruning leaves only initialisations and the query in the trace. The edge outcome is `FirstEdgeError` over `ExpectedShape`, and every lookup entry wraps or matches a declaration or stored resource of its kind and name. Keep is aligned with what the declarations and the stored resources hand to the graph; dropped starting vertices are exited then deleted, once each, and every starting vertex accounted for by no declaration or stored resource is dropped. On success the graph is fresh, named after the document, holds exactly the kept vertices, each standing for a declaration or a stored resource under a rule, with one for every such source, and the surviving plus resolved edges; each new vertex is initialised once, comes from a declaration or the store, and matches no starting vertex; on every path, each vertex the trace initialises matches no vertex initialised before it, so a resource matching a vertex made earlier in the pass reuses it (`NoneReinitialized`); every resolved edge joins vertices standing for the resources its declaration names |

## Left out

- Decoding the document and reading it from a file are not modelled. `Parse` takes the decoder's
  outcome as its input.
- Reflection over the resources section is replaced by the fixed list of seven fields, in
  declaration order. The field names are upper-cased by `FirstToUpper`, as the source does.
- The branch for an entry that is not a resource (lines 140-143) cannot happen in the model: every
  entry is a `Resource` by its type.
- Resources are values, not shared objects, so aliasing is not modelled:
  - the source cuts the marker off the document's own resource object, so a second pass on the
    same document sees the name without the marker;
  - the source changes a collected resource for each rule that takes it, while an earlier rule's
    vertex may already hold that resource.
- Resource behaviour is not modelled. `Init` appears only as an `Initialized` event, and the
  meaning of the collect pattern is not modelled.
- Sending the exit event blocks until the worker acknowledges it; that wait, and the workers
  themselves, are not modelled. The exit appears as an `ExitSent` event.
- Logging, the warning for a resource taken by more than one rule, and `global.DEBUG` are not
  modelled.
- The graph package's internal representation is not part of this model. Edges are a set of
  labelled edges; vertex identity is object identity.
- PGraph.Graph.GetVertexMatch: the per-kind resource comparison is a caller-supplied relation
  `matches`. When several vertices match, the choice among them is left open.
- The store's replication and consensus are not part of this model. Either store call may fail at
  any time; that failure is a nondeterministic outcome.
- Etcd.Store.GetResources: the order of the returned resources is not stated, only which
  resources they are. The same holds for the order in which pruning visits vertices.
- Resources.FirstToUpper: upper-cases ASCII letters only. The utility's own source is not part of
  this model.
- GConfig.AttachEdges: on failure the contract does not say which edges were already added. The
  source discards that graph anyway.
- The document's `comment` and `remote` fields are carried but never read by the pass.
- Re-running a pass on its own result (idempotence) is not proved. It depends on the resource
  comparison, which is a parameter here.
- GConfig.ClassifyField: each lookup entry is stated to stand for some unmarked declaration of its
  kind and name, not necessarily the last one written (line 162). That a later declaration of the
  same name replaces the entry is stated one declaration at a time by `ClassifyOne`.
- GConfig.Classify: a lookup entry for a kind and name declared more than once is stated to stand
  for some unmarked declaration of that kind and name, not necessarily the last one written
  (line 162).
- GConfig.CollectOne: an entry written during collection is stated to stand for some collected
  resource of its kind and name, as some rule changed it, not for the last rule that wrote it
  (line 236). That is stated one rule at a time by `CollectUnder`.
- GConfig.Collect: a lookup entry for a kind and name collected more than once is stated to stand
  for some collected resource of that kind and name, as some rule changed it, not necessarily the
  last one written (line 236).
- GConfig.Gather: a lookup entry for a kind and name written more than once is stated to stand for
  some declaration or collected resource of that kind and name, not necessarily the last one
  written (lines 162 and 236).
- GConfig.NewGraphFromConfig: a lookup entry for a kind and name written more than once, and so
  each resolved edge end, is stated to stand for some declaration or collected resource of that
  kind and name, not necessarily the last one written (lines 162 and 236).
