# Conformer environment and batched torsion policy: a Dafny model

This project models the index and sequence logic of a reinforcement-learning
setup that searches for low-energy molecular conformers. The environment
rotates the rotatable torsions (dihedrals) of one molecule. Its observation
is a set of zero-padded tables of atoms, bonds, bond angles and torsions,
which is turned into a graph. A graph network with recurrent memory then
chooses one rotation bin per torsion. Chemistry (RDKit, stk) and the neural
layers (torch) are not modelled. What remains is pure bookkeeping, and that is
what the model states and proves:

- `Angles` (angles.dfy): `getAngles`, which enumerates the bond angles
  a-centre-b from the bond list. Ring bonds are skipped and a neighbour map is
  built as bonds arrive. The model gives the scan as written, a corrected scan,
  and a method returning the angle list.
- `Observation` (observation.dfy): `_get_obs` packs positions, bond
  features, angle rows and dihedral rows into fixed 250x3, 300x8, 200x3 and
  100x3 zero tables, plus a count vector. `obsToGraph` slices them back and
  builds a symmetric edge index and an 8-column edge-attribute table that is
  written twice.
- `Environment` (environment.dfy): the step counter, `reset`, the action
  space (6 bins per torsion) and the bin-to-angle map -180 + 60a. `step` is
  modelled as written and as intended.
- `XorGate` (xor_gate.dfy): the field arithmetic of the XOR-gate polymer,
  the alternating 'ABAB...' monomer pattern, `get_torsions` as a function of
  the atom count, and the torsion index inside a single gate. Python's `//`
  and `%` are modelled explicitly.
- `Batching` (batching.dfy): `RTGNBatch.forward`'s running node offset,
  the shifted torsion lists, `torsion_batch_idx` and `torsion_list_sizes`.
- `Actor` (actor.dfy): the tensor plumbing of `ActorBatchNet.forward`.
  This covers the `index_select` gathers, the `view` reshapes, `split`,
  `pad_sequence`, and the recurrent-state tuples.
- `Pipeline` (pipeline.dfy): the two put together. Every graph of a batch
  gets its own torsions' logits, in order, computed from its own memory row
  and its own atoms' node rows.
- Support modules: `Seqs` (sums, concatenation, repetition), `Outcomes`
  (Option/Result), `Molecule` (bonds, torsions, adjacency) and `Arith`
  (division facts).

Tensors are sequences of rows, and element types are abstract or `real`.
Foreign calls become function parameters:

- the angle and dihedral measurements (`angleDegrees`, `dihedralDegrees`);
- the memory output (`lstmOut`);
- the node embeddings (`out`);
- the per-torsion head (`head`);
- the recurrent memory steps (`actorMemory`, `criticMemory`).

RDKit's conformer work appears only as the list of dihedral targets a step
asks it to set (`DihedralTarget`).

Three behaviours a reader might expect are absent from the code. The model
follows the code:

- `step` does not refuse to run after `done`, and does not check that each
  bin lies in 0..5.
- The padded logits are not masked before the categorical distribution is
  built. Padding rows are plain zero rows (`Pipeline.ActorLogitsPerGraph`).
- `step` sets only the first torsion, although the comment at gymspace.py:179
  says every element of the action rotates a dihedral (see Findings).

## Model

| member | source | states |
|---|---|---|
| `Angles.Visit` | gymspace.py:28-48 | One iteration of the bond loop as written: a ring bond changes nothing, the begin atom is linked to the end atom, and the end atom is linked back only if it already has a list. Its contract is stated by `Angles.VisitSound`, `Angles.RingBondsIgnored` and `Angles.MissedChainAngle`. |
| `Angles.ScanBonds` | gymspace.py:24-48 | The bond loop as written, from an empty map and set, over the bonds in order. Its contract is stated by `Angles.ScanSound` and `Angles.RingBondsIgnored`. |
| `Angles.AngleSet` | gymspace.py:24-49 | The set getAngles turns into a list. Its contract is stated by `Angles.AngleSetSound`, `Angles.AsWrittenWithinFixed` and `Angles.GetAngles`. |
| `Angles.LinkFacts` | gymspace.py:31-40 | Linking a centre to a new atom adds exactly that one neighbour link. The angles added are those the centre's earlier neighbours form with the new atom; a centre without a list starts one and adds no angle. |
| `Angles.AroundMembers` | gymspace.py:32-37 | Every triple added around a centre has that centre and its smaller outer atom first. Its outer atoms are earlier neighbours or the new atom. Neither outer atom equals the centre unless the bond is a self-loop. |
| `Angles.LinkSound` | gymspace.py:31-48 | Linking along a processed non-ring bond keeps every neighbour link and every stored angle backed by processed bonds. |
| `Angles.VisitSound` | gymspace.py:28-48 | One iteration of the bond loop keeps the scan sound with respect to the bonds seen so far. |
| `Angles.ScanSound` | gymspace.py:27-48 | After any prefix of the bonds, every recorded neighbour is joined to its atom by a processed non-ring bond. Every stored triple is ordered and both of its outer atoms are bonded to its centre. |
| `Angles.AngleSetSound` | gymspace.py:29-49 | When no non-ring bond joins an atom to itself, every triple getAngles returns is a bond angle. Its first atom is below its last, both differ from the centre, and both are joined to the centre by non-ring bonds, so the centre is an endpoint of a processed bond. |
| `Angles.SelfLoopRepeatsCentre` | gymspace.py:33-35 | With a self-loop bond 0-0 after bond 0-1, the scan stores (0, 0, 1), whose outer atom is its centre. This is why the no-self-loop hypothesis is needed. |
| `Angles.NonRing` | gymspace.py:28 | The filtered list holds only non-ring bonds. Every non-ring bond of the input appears in it exactly as often as in the input, and no ring bond does. |
| `Angles.NonRingPrefix` | gymspace.py:27-28 | The non-ring bonds of any prefix of the bond list come first among the non-ring bonds of the whole list, in the same order. Together with NonRing's counts, the filter keeps the loop's order. |
| `Angles.RingBondsIgnored` | gymspace.py:28 | Scanning a bond list gives the same neighbour map and angle set as scanning its non-ring bonds alone. Ring bonds contribute nothing. |
| `Angles.MissedChainAngle` | gymspace.py:41-48 | For bonds 0-1 then 1-2, 0-1-2 is a bond angle of the molecule, yet the scan as written returns no angle. |
| `Angles.NewAngles` | gymspace.py:29-48 | The bond angles that a new non-ring bond u-v adds are exactly those with one arm u-v and the other arm an earlier bond at u or at v. |
| `Angles.ScanBondsFixed` | gymspace.py:27-48 | The bond loop with both ends of every non-ring bond linked. Its contract is stated by `Angles.ScanFixedExact` and `Angles.FixedScanComplete`. |
| `Angles.VisitFixedExact` | gymspace.py:28-48 | With both ends linked, one iteration keeps the neighbour map equal to the adjacency of the bonds seen and the angle set equal to their bond angles. |
| `Angles.ScanFixedExact` | gymspace.py:27-48 | The corrected scan's map and set are exactly the adjacency and the bond angles of the whole list. |
| `Angles.FixedScanComplete` | gymspace.py:23-49 | With both ends linked, a triple is returned if and only if it is a bond angle of the molecule, for every bond list without self-loops. |
| `Angles.AsWrittenWithinFixed` | gymspace.py:41-48 | When no non-ring bond joins an atom to itself, the scan as written returns a subset of the corrected scan's angles: it only ever misses angles, never adds wrong ones. |
| `Angles.GetAngles` | gymspace.py:23-49 | The returned list holds exactly the stored triples, each once, each with first atom below last. When no non-ring bond is a self-loop, each is a bond angle of the molecule. |
| `Environment.ActionSpace` | gymspace.py:73 | The action space has one entry per rotatable torsion, each with 6 bins. |
| `Environment.ActionAngle` | gymspace.py:186 | The target dihedral a bin asks for. Its contract is stated by `Environment.ActionAngleBins` and `Environment.ValidActionTargets`. |
| `Environment.ActionAngleBins` | gymspace.py:186 | A bin is in 0..5 exactly when its target angle is one of -180, -120, -60, 0, 60, 120. The bin is recovered from its angle as (angle + 180) / 60. |
| `Environment.Reset` | gymspace.py:208-209 | `reset` sets the counter to 0 and keeps the torsion list. |
| `Environment.Step` | gymspace.py:178-205 | The counter goes up by exactly one. With no torsion the call returns None. With torsions but an empty action it raises an index error. Otherwise it sets only torsion 0, to the angle of action[0], and reports done exactly when the counter is 100. |
| `Environment.StepIntended` | gymspace.py:184-198 | The corrected step: the counter goes up by one and every torsion i is set to the angle of action[i]. An index error occurs exactly when the action is shorter than the torsion list. Done holds exactly when the counter is 100. |
| `Environment.ValidActionTargets` | gymspace.py:185-189 | An action in the action space always steps when there are torsions. Every dihedral target it sets is one of the six bin angles, as written and as intended. |
| `Environment.SingleTorsionAgrees` | gymspace.py:185-205 | With one rotatable torsion, the step as written and the intended step agree. |
| `Environment.OnlyFirstTorsionSet` | gymspace.py:185-205 | With two torsions and action [0, 3], the intended targets are -180 and 0 degrees, but the step as written sets only the first. |
| `Environment.Episode` | gymspace.py:182-209 | After reset and k steps the counter is k. A step reports done only when it is the 100th; when there are torsions and the action is non-empty, the 100th step does report done. |
| `Observation.Fill` | gymspace.py:94 | Writing rows into the front of a table replaces exactly those rows, keeps the rest and keeps the length. |
| `Observation.GetObs` | gymspace.py:91-127 | Packing fails, naming the first table overrun, exactly when a list is longer than its table (250 atoms, 300 bonds, 200 angles, 100 torsions). Otherwise the tables have the declared shapes and the counts are the list lengths. Row i holds item i's features: positions; begin, end and six bond flags; outer atoms and angle/180; end atoms and dihedral/180. Every later row is zero. |
| `Observation.TruncOfInt` | gymspace.py:237 | Converting a float that holds an atom index to a long gives the index back. |
| `Observation.BondAttr` | gymspace.py:231 | A bond edge's attributes are its six flags in columns 0-5, with zeros in columns 6 and 7. |
| `Observation.AngleAttr` | gymspace.py:232 | An angle edge's attributes are its scaled angle in column 6 and zero elsewhere. |
| `Observation.DihedralAttr` | gymspace.py:233 | A dihedral edge's attributes are its scaled dihedral in column 7 and zero elsewhere. |
| `Observation.EdgeEnds` | gymspace.py:222-227 | The end column of the edges lists the bond rows, then the angle rows, then the dihedral rows, each at its own offset. |
| `Observation.EdgeAttrs` | gymspace.py:230-233 | One 8-column attribute row per bond, angle and dihedral row, in that order, with the block structure above. |
| `Observation.ObsToGraph` | gymspace.py:220-234 | Unpacking fails exactly when a bond, angle or dihedral count exceeds its table. An atom count above 250 is clipped. |
| `Observation.Assemble` | gymspace.py:222-234 | The graph built from the sliced tables. It has two index rows, and both they and the attribute table have 2E entries. The row contents are stated by `Observation.AssembleEdgeIndex` and `Observation.AssembleEdgeAttr`. |
| `Observation.AssembleEdgeIndex` | gymspace.py:222-228 | Both index rows have 2E entries. Row 0 lists the first ends followed by the second ends, and row 1 is row 0 with its halves swapped, so every edge appears in both directions. |
| `Observation.AssembleEdgeAttr` | gymspace.py:230-234 | The attribute table has 2E rows of 8 columns and row k+E repeats row k. Bond rows carry flags only in columns 0-5, angle rows only column 6, dihedral rows only column 7. |
| `Observation.Slices` | gymspace.py:221-233 | On a well-shaped observation that unpacks, the counted slices have the bond, angle and dihedral widths and the graph is built from them. |
| `Observation.ObsToGraphNodes` | gymspace.py:221 | The graph's node features equal its positions: the first count[0] node rows, or all 250 when the count is larger. |
| `Observation.ObsToGraphEdges` | gymspace.py:222-228 | The edge index of an unpacked observation has two rows of 2E entries, E = count[1] + count[2] + count[3], the second being the first with its halves swapped. |
| `Observation.ObsToGraphAttrs` | gymspace.py:230-234 | The edge attributes of an unpacked observation are 2E rows of 8 columns, the second half repeating the first. |
| `Observation.BondEdgesRoundTrip` | gymspace.py:101-113 | After packing and unpacking, bond k is edge k, from its begin atom to its end atom, with its six flags as attributes. |
| `Observation.AngleEdgesRoundTrip` | gymspace.py:114-120 | After packing and unpacking, angle k is edge B + k (B the bond count), between its outer atoms, with the measured angle / 180 in column 6 only. |
| `Observation.DihedralEdgesRoundTrip` | gymspace.py:121-127 | After packing and unpacking, torsion k is edge B + A + k (B bonds, A angles), between its end atoms, with the measured dihedral / 180 in column 7 only. |
| `Observation.PackedSlices` | gymspace.py:93-99 | Packed lists that fit their tables are sliced back by the counts into exactly the tables they came from. |
| `Observation.PackThenUnpack` | gymspace.py:93-234 | Any lists that fit pack without error and unpack without error. The graph's nodes are exactly the positions, and every bond, angle and torsion comes back as its own edge with its own attributes. |
| `XorGate.NewGate` | generate_molecule/xor_gate.py:29-33 | A new gate keeps its complexity and gate count and has their product as its torsion count. |
| `XorGate.IndividualGate` | generate_molecule/xor_gate.py:127-129 | The single gate has one gate and the same complexity, so its torsion count is the complexity. |
| `XorGate.MonomerPattern` | generate_molecule/xor_gate.py:39-40 | The monomer pattern string, refused for a negative gate count as islice refuses it. Its contract is stated by `XorGate.PatternAlternates`. |
| `XorGate.CycleTake` | generate_molecule/xor_gate.py:40 | The first n characters of a string repeated for ever: n characters, each past the first copy equal to the one a string's length earlier. An empty string gives the empty result. |
| `XorGate.CycleTakeAt` | generate_molecule/xor_gate.py:40 | Character i of the cycle is character i mod n of the string, n its length. |
| `XorGate.PatternAlternates` | generate_molecule/xor_gate.py:39-40 | The monomer pattern exists exactly for a non-negative gate count. It has one letter per gate, 'A' exactly at even positions and 'B' exactly at odd ones. |
| `XorGate.Range` | generate_molecule/xor_gate.py:118 | Entry k of range(start, stop, step) is start + step*k, below stop, and the next value would reach stop. |
| `XorGate.TopTorsion` | generate_molecule/xor_gate.py:118 | A top torsion has four atoms and pivots on its atom i. |
| `XorGate.BottomTorsion` | generate_molecule/xor_gate.py:119 | A bottom torsion has four atoms and pivots on its atom i. |
| `XorGate.TopTorsions` | generate_molecule/xor_gate.py:115-118 | Top torsion k pivots on 9 + 7k, below num_atoms // 2 + 1, and the list covers every such pivot. |
| `XorGate.BottomTorsions` | generate_molecule/xor_gate.py:115-119 | Bottom torsion k pivots on num_top + 3 + 7k, below num_atoms, and the list covers every such pivot. |
| `XorGate.GetTorsions` | generate_molecule/xor_gate.py:112-120 | get_torsions for a polymer of num_atoms atoms. Its contract is stated by `XorGate.TorsionCount`, `XorGate.TopTorsionAt`, `XorGate.BottomTorsionAt`, `XorGate.PivotsIncrease` and `XorGate.TorsionsOf44`. |
| `XorGate.TorsionCount` | generate_molecule/xor_gate.py:117-119 | The list starts with [1, 0, 7, 8] and holds one more torsion per top and per bottom monomer. |
| `XorGate.TopTorsionAt` | generate_molecule/xor_gate.py:116-118 | Entry k (1 <= k <= top count) is the top torsion pivoting on 9 + 7(k-1), inside the top strand. |
| `XorGate.BottomTorsionAt` | generate_molecule/xor_gate.py:116-119 | The entries after the top ones are bottom torsions pivoting on num_top + 3 + 7j, between the top strand and num_atoms. |
| `XorGate.PivotPair` | generate_molecule/xor_gate.py:117-119 | Any two entries have four atoms each, and the earlier one has the smaller pivot. |
| `XorGate.PivotsIncrease` | generate_molecule/xor_gate.py:117-119 | Every entry has four atoms and the pivots strictly increase along the list. |
| `XorGate.TopOf44` | generate_molecule/xor_gate.py:17-18 | For 44 atoms the top torsions are the two listed in the documentation. |
| `XorGate.BottomOf44` | generate_molecule/xor_gate.py:19-21 | For 44 atoms the bottom torsions are the three listed in the documentation. |
| `XorGate.TorsionsOf44` | generate_molecule/xor_gate.py:14-22 | For the 44-atom, two-complexity, three-gate polymer, get_torsions gives exactly the six documented torsions, as many as num_torsions. |
| `XorGate.PyMod` | generate_molecule/xor_gate.py:133 | Python's remainder takes the sign of the divisor, lies strictly within it, and completes floor division. |
| `XorGate.IndividualGateTorsionIdx` | generate_molecule/xor_gate.py:131-133 | The call raises a zero-division error exactly for complexity 0. Otherwise the index lies in [0, complexity) (or (complexity, 0] for a negative one) and is congruent to the torsion index. |
| `XorGate.IndividualIndexInGate` | generate_molecule/xor_gate.py:131-133 | For a positive complexity c, torsion q*c + j of any gate q maps to torsion j, a valid torsion of the single gate. |
| `Batching.NodeCounts` | rtgn_batch_test.py:159 | One node count per graph, in batch order. |
| `Batching.TorsionCounts` | rtgn_batch_test.py:161 | torsion_list_sizes holds one torsion count per graph, in batch order. |
| `Batching.Offset` | rtgn_batch_test.py:152-159 | so_far when graph i is reached: the node count of graphs 0..i-1. Its contract is stated by `Batching.BatchForward` (the loop keeps so_far equal to it) and `Batching.OffsetBlocks`. |
| `Batching.ShiftRow` | rtgn_batch_test.py:158 | Shifting adds the offset to every atom index; subtracting it gives the original index. |
| `Batching.ShiftRows` | rtgn_batch_test.py:158 | Every torsion of a graph is shifted by the same offset. |
| `Batching.ShiftedLists` | rtgn_batch_test.py:156-159 | Graph i's torsions are shifted by the node count of graphs 0..i-1. |
| `Batching.Tags` | rtgn_batch_test.py:153-160 | torsion_batch_idx: sizes[i] copies of i for every graph i, in order. Its contract is stated by `Batching.TagsLength`, `Batching.TagsBlock`, `Batching.TagsSorted` and `Batching.TagsCount`. |
| `Batching.TagsSnoc` | rtgn_batch_test.py:160 | Appending a graph appends its torsion count of copies of its index to the tags. |
| `Batching.BatchForward` | rtgn_batch_test.py:152-165 | The loop's outputs are the concatenated shifted torsion lists, the per-graph torsion counts, and the tags built from those counts. so_far is the running prefix sum of the node counts. |
| `Batching.TagsLength` | rtgn_batch_test.py:160 | There are as many tags as torsions in all. |
| `Batching.TagsBlock` | rtgn_batch_test.py:160 | Position k carries tag i exactly when it lies in graph i's block of torsion positions. |
| `Batching.TagsSorted` | rtgn_batch_test.py:160 | Every tag names a graph of the batch, and the tags never decrease. |
| `Batching.TagsCount` | rtgn_batch_test.py:160-161 | Graph i is tagged on exactly torsion_list_sizes[i] torsions, and no other value occurs. |
| `Batching.BatchLengths` | rtgn_batch_test.py:160-163 | The concatenated torsion list, the tags and the sum of the torsion counts have the same length. |
| `Batching.RowsFollowTags` | rtgn_batch_test.py:158-163 | Row t of the concatenated torsions is a torsion of the graph its tag names, at its position within that graph's block, shifted by that graph's node offset. |
| `Batching.UnshiftRow` | rtgn_batch_test.py:158 | Shifting back by the offset recovers the graph-local atom indices. |
| `Batching.OffsetBlocks` | rtgn_batch_test.py:158-159 | Graph i's nodes occupy [offset_i, offset_i + n_i). The blocks follow each other without gaps and fill the batch. |
| `Batching.ShiftIntoBlock` | rtgn_batch_test.py:158-159 | A torsion whose atoms lie in [0, n_i) lands, after the shift, inside graph i's block and inside no other graph's block. |
| `Actor.IndexSelect` | rtgn_batch_test.py:110-114 | The gather succeeds exactly when every index is a row of the table. Row t of its result is the indexed row. |
| `Actor.View` | rtgn_batch_test.py:116 | A successful view cuts the data into rows of the given width that concatenate back to it. |
| `Actor.ViewDefined` | rtgn_batch_test.py:116 | The view exists exactly when the width divides the length. |
| `Actor.ViewOfRows` | rtgn_batch_test.py:116 | Viewing a concatenation of equal-width rows gives those rows back. |
| `Actor.MemoryRows` | rtgn_batch_test.py:99-105 | The memory gather succeeds exactly when every tag names a graph. Per-torsion row t is then the memory row of graph torsion_batch_idx[t]. |
| `Actor.FourWideOffsets` | rtgn_batch_test.py:113 | In the flattened torsion list, torsion t starts at entry 4t. |
| `Actor.FlatAtoms` | rtgn_batch_test.py:113 | nonring.view(-1) has 4n entries, and entry 4t + a is atom a of torsion t. |
| `Actor.FlatAtom` | rtgn_batch_test.py:113 | Entry 4t + a of the flattened list exists and is atom a of torsion t. |
| `Actor.GroupedConcat` | rtgn_batch_test.py:116 | Grouping rows by four keeps their concatenation. |
| `Actor.GroupIsQuartet` | rtgn_batch_test.py:110-116 | Group t of the gathered node rows is the rows of torsion t's four atoms side by side. |
| `Actor.TorsionRows` | rtgn_batch_test.py:110-116 | The node gather regrouped into one row of width 4*dim per torsion. Its contract is stated by `Actor.TorsionRowsSpec`. |
| `Actor.TorsionRowsSome` | rtgn_batch_test.py:110-116 | When every torsion names four nodes, row t of the regrouped gather is the node rows of torsion t's atoms side by side. |
| `Actor.TorsionRowsNone` | rtgn_batch_test.py:110-114 | A torsion atom that is not a node makes the gather fail. |
| `Actor.TorsionRowsSpec` | rtgn_batch_test.py:110-116 | The node gather succeeds exactly when every torsion's atoms are nodes. It then has one row per torsion, the node rows of its four atoms side by side. |
| `Actor.Split` | rtgn_batch_test.py:122 | tensor.split by the torsion counts. Its contract is stated by `Actor.SplitSpec`, `Actor.SplitPieceAt`, `Actor.SplitConcat` and `Actor.SplitUnique`. |
| `Actor.SplitSpec` | rtgn_batch_test.py:122 | Split succeeds exactly when the sizes add up to the length. The pieces then have exactly the requested sizes and concatenate back to the input. |
| `Actor.SplitDefined` | rtgn_batch_test.py:122 | Split succeeds exactly when the sizes add up to the length. |
| `Actor.SplitStep` | rtgn_batch_test.py:122 | Adding a piece adds its length to the sizes and its entries to the concatenation. |
| `Actor.SplitPieceAt` | rtgn_batch_test.py:122 | Entry j of piece i is entry Sum(sizes[..i]) + j of the input. |
| `Actor.SplitConcat` | rtgn_batch_test.py:122 | Splitting a concatenation by its members' lengths gives the members back. |
| `Actor.SplitUnique` | rtgn_batch_test.py:122 | Pieces with the same lengths and the same concatenation are equal, so the split is the only such cut. |
| `Actor.PadTo` | rtgn_batch_test.py:123 | A padded row has the target length, starts with its piece and continues with the padding value. |
| `Actor.Pad` | rtgn_batch_test.py:123 | Padding succeeds exactly for a non-empty list of pieces. |
| `Actor.PadSpec` | rtgn_batch_test.py:123 | One row per piece, each as long as the longest piece. Each row starts with its piece and continues with zeros, and some piece needs no padding. |
| `Actor.PaddedEntry` | rtgn_batch_test.py:122-123 | Entry j of padded row i is entry Sum(sizes[..i]) + j of the flat input. |
| `Actor.PaddedShape` | rtgn_batch_test.py:122-123 | The padded split has one row per size, row i at least sizes[i] long and zero past sizes[i]. |
| `Actor.PaddedEntries` | rtgn_batch_test.py:122-123 | Every entry below sizes[i] of padded row i comes from the flat input at offset Sum(sizes[..i]). |
| `Actor.PaddedPieces` | rtgn_batch_test.py:122-123 | The split and padded logits have one row per graph. Row i starts with graph i's sizes[i] entries of the flat input, in order, and continues with zero rows. |
| `Actor.UnpadPad` | rtgn_batch_test.py:123 | Cutting every padded row back to its piece's length undoes the padding. |
| `Actor.InitialState` | rtgn_batch_test.py:79-83 | Given states are used unchanged. Without them, hidden and cell states are zero, one row of width dim per graph. |
| `Actor.SplitStates` | rtgn_batch_test.py:167-173 | The given (hp, cp, hv, cv) go to the actor as (hp, cp) and to the critic as (hv, cv), and no states give none to either. Its contract is stated by `Actor.StatesRoundTrip` and `Actor.ForwardStatesSpec`. |
| `Actor.JoinStates` | rtgn_batch_test.py:190 | The new actor and critic states returned together as (hp, cp, hv, cv). Its contract is stated by `Actor.StatesRoundTrip`. |
| `Actor.StatesRoundTrip` | rtgn_batch_test.py:167-190 | Splitting (hp, cp, hv, cv) into actor and critic states and joining them back are inverse to each other. |
| `Actor.ForwardStates` | rtgn_batch_test.py:167-190 | The state flow of one `RTGNBatch.forward`, with the memory steps as parameters. Its contract is stated by `Actor.ForwardStatesSpec`. |
| `Actor.ForwardStatesSpec` | rtgn_batch_test.py:167-190 | The actor's new states come from its own previous (hp, cp) only, and the critic's from (hv, cv) only. Both start from zeros when no states are given. |
| `Pipeline.TorsionInputs` | rtgn_batch_test.py:99-117 | The head inputs: per torsion, the memory row of its graph followed by its four atoms' node rows. Its contract is stated by `Pipeline.InputsExist` and `Pipeline.BatchInputs`. |
| `Pipeline.ActorLogits` | rtgn_batch_test.py:99-123 | The actor's logits: the head on every input row, split by the torsion counts and padded with zero rows. Its contract is stated by `Pipeline.LogitsArePadded` and `Pipeline.ActorLogitsPerGraph`. |
| `Pipeline.BatchedAtoms` | rtgn_batch_test.py:156-163 | A torsion naming four nodes of its graph names, once shifted, four nodes of the batch. |
| `Pipeline.TorsionPosition` | rtgn_batch_test.py:156-163 | Torsion j of graph i sits at batch row Sum(sizes[..i]) + j. It is tagged i and shifted by graph i's node offset. |
| `Pipeline.BatchedRow` | rtgn_batch_test.py:156-163 | Row t of the batched torsions is tagged with a graph of the batch and names four batch nodes. |
| `Pipeline.BatchedRows` | rtgn_batch_test.py:156-163 | Every batched torsion row has four atoms, a tag naming a graph of the batch, and atoms that are batch nodes. |
| `Pipeline.InputsExist` | rtgn_batch_test.py:99-117 | For well-formed graphs, both gathers and the concatenation succeed. Input row t is the memory row of graph tags[t] followed by the node rows of batched torsion t's atoms. |
| `Pipeline.InputAt` | rtgn_batch_test.py:99-117 | The input at row Sum(sizes[..i]) + j is that of torsion j of graph i. |
| `Pipeline.InputsDefined` | rtgn_batch_test.py:99-117 | The gathers succeed and give one input row per batched torsion. |
| `Pipeline.BatchInputs` | rtgn_batch_test.py:99-117 | The input row of torsion j of graph i combines graph i's own memory row with the node rows of its own atoms. No torsion is paired with another graph's memory or nodes. |
| `Pipeline.HeadRows` | rtgn_batch_test.py:119-120 | The head is applied row by row, one output per input row. |
| `Pipeline.LogitsArePadded` | rtgn_batch_test.py:119-123 | The actor's output is the padded split, by the torsion counts, of the head applied to every input row. |
| `Pipeline.LogitAt` | rtgn_batch_test.py:119-123 | Logit j of graph i is the head applied to the input row of torsion j of graph i. |
| `Pipeline.ActorLogitsPerGraph` | rtgn_batch_test.py:99-123 | The actor gives one padded row per graph. Its first entries are the head applied to that graph's torsions' inputs, in order, and the rest are zero rows of width action_dim. |

## Left out

- RDKit conformer embedding, MMFF optimisation and minimisation, and energy evaluation are foreign calls. A step is modelled only by the dihedral targets it asks RDKit to set.
- The reward `exp(-(E - E_standard))` is left out: it is floating point over a foreign energy.
- Angle and dihedral measurement on the conformer is foreign geometry. It enters as the parameters `angleDegrees` and `dihedralDegrees`.
- torch_geometric's `Data` and `Batch`, and the `Distance` transform, are left out. The graph keeps x, edge_index, edge_attr and pos; the distance column `Distance` appends is not modelled.
- `Batch.from_data_list`, `to_data_list` and `data.batch` are modelled through their effect: each observation contributes exactly one graph, with its node count and its torsion list.
- The neural layers (Linear, NNConv, GRU, Set2Set, LSTM, ReLU) are opaque numerics. Their outputs are parameters (`lstmOut`, `out`) or a row-wise function (`head`, `actorMemory`, `criticMemory`).
- The critic's value head is left out. Only its recurrent-state threading is modelled.
- Categorical sampling, log-probability and entropy are randomness over floats. The code does not mask padded logits, and the model does not claim masking.
- stk/stko construction, drawing and display in the XOR-gate module are library wrappers. The atom count of the built polymer is a parameter of `get_torsions`. `get_env` only raises and is not modelled.
- Module-level script code, `print` calls and `pdb` imports are left out.
- src/torsionnet/environments/environments.py and its conformer_environment/__init__.py hold only imports and mixin composition, so they are not part of this model.
- examples/test_example.py is a training configuration script whose agent, task and curriculum code is not part of this model.
- Numeric types: float64 tables are `real`. The long conversion of edge indices is truncation toward zero. The int64 width is not modelled, since every index involved is far below it. The rounding to float32 that `torch.float` applies to positions and edge attributes (gymspace.py:236-239) is not modelled: the graph's x, pos and edge_attr are the exact table values.
- Environment.Step: the action is taken to be a flat one-dimensional integer array. The comment at gymspace.py:179 documents shape [1, n]. For that shape `action[0]` is a whole row, and `ang.item()` (gymspace.py:187) raises ValueError when n >= 2, after the counter has gone up. A plain list of ints raises AttributeError at the same call. Neither error is modelled. The MMFF minimisation after the dihedral is set is not modelled. The observation and reward it returns are not modelled either; only the counter, the targets and the done flag are.
- Environment.Step: `self.action = action` (gymspace.py:181) stores the last action on the environment, and nothing in the modelled code reads it back, so the model does not keep it.
- Observation.ObsToGraph: a negative count, which numpy would read as counting from the end, is not modelled. Counts are natural numbers.

## Findings

| source | as written | input that shows it | evidently intended | confidence | as-written member | corrected member |
|---|---|---|---|---|---|---|
| gymspace.py:41-48 | The end atom of a bond gets a neighbour list only if it already has one; there is no `else` starting one. | Non-ring bonds 0-1 then 1-2: atom 1 gets no list from bond 0-1, so bond 1-2 finds no earlier neighbour of 1 and the angle 0-1-2 is never stored. | Both ends of every non-ring bond are linked, so every bond angle of the molecule is returned. | not executed | `Angles.MissedChainAngle` | `Angles.FixedScanComplete` |
| gymspace.py:185-205 | The observation, reward and `return` sit inside the loop over torsions. | Two torsions and action [0, 3]: only torsion 0 is set (-180 degrees); torsion 1 is never set to 0 degrees. With no torsion the call returns None. | Every torsion i is set from action[i], then one observation, reward and done flag are returned. | not executed | `Environment.OnlyFirstTorsionSet` | `Environment.StepIntended` |
