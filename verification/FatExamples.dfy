/** Concrete volumes: an append at a cluster boundary that does not append, and a mkdir that leaves a record behind. */
module FatExamples {
  import opened Common
  import opened Arith
  import opened Bytes
  import opened FatTable
  import opened FatChains
  import opened FatSlots
  import opened FatStore
  import opened FatTree
  import opened FatOps
  import opened FatInvariant
  import opened FatSteps
  import opened FatFiles
  import opened FatAppend
  import opened FatAppendExact
  import opened FatDirs
  import opened FatWrites
  import opened FatMkdir
  import opened FatPaths
  import opened FatRoutes
  import opened FatTheorems
  import opened FatPathTheorems
  import opened FatDirTheorems
  import opened FatConserve
  import opened FatFilling
  import opened FatBridge
  import opened FatImage
  import opened FatBuilder

  // the name "A", padded with blanks
  const NAME: ShortName := [65, 32, 32, 32, 32, 32, 32, 32, 32, 32, 32]

  lemma NameIsFine()
    ensures Nameable(NAME)
  {
  }

  lemma OneCluster()
    ensures Clusters(512, 512) == 1 && |Zeros(512)| == 512
  {
  }

  lemma SmallSources()
    ensures Sized(Buffer(Zeros(512))) && Sized(Buffer([1]))
    ensures BytesOf(Buffer(Zeros(512))) == Zeros(512) && BytesOf(Buffer([1])) == [1]
  {
  }

  lemma EmptyRoot()
    ensures 0 in EmptyTree().view && EmptyVolume().csize == 512 && EmptyVolume().kind == Fat16
  {
  }

  /** Appending to a file that ends inside or at the end of its tail cluster always finds room for one byte. */
  lemma AppendByteSucceeds(v: Volume, ch: Chains, t: Tree, d: nat, name: ShortName)
    requires Inv(v, ch, t) && d in t.view && Nameable(name) && Shape(v) && 2 <= v.csize
    requires Lookup(t, d, name).Some? && Lookup(t, d, name).value.Entry? && !Lookup(t, d, name).value.directory && Lookup(t, d, name).value.head >= 2
    requires Rem(Lookup(t, d, name).value.size, v.csize) == 0
    ensures Write(v, d, name, AppendTo, Buffer([1])).ok
  {
    hide *;
    InvParts(v, ch, t);
    CsizePositive(v);
    var r := LocateStep(v, ch, t, d, name);
    WriteUnfold(v, d, name, AppendTo, Buffer([1]));
    var loc := Locate(v, d, name).value;
    var s := Get(v.data, loc);
    StoredAtParts(v.data, ch, t, r, loc);
    MatchesIs(At(t, r), name);
    NotDot(v, ch, t, r, s, name);
    DecodeFields(s);
    StoreUnfold(v, loc, s, AppendTo, Buffer([1]));
    BytesOfIs(Buffer([1]));
    AppendUnfold(v, loc, s, [1]);
    OwnsHead(At(t, r));
    OwnerHead(v, ch, t, r);
    WalkIs(v, ch, Head(s));
    ChainFacts(v, ch, Head(s));
    TailUnfold(v, loc, s, Last(ch[Head(s)]), Rem(Size(s), v.csize), [1]);
  }

  /**
   A file of exactly one cluster: appending a byte succeeds, but reading the file does not
   give its contents followed by the byte.
   */
  lemma AppendAtBoundaryFails()
    ensures Shape(EmptyVolume())
    ensures var v1 := Write(EmptyVolume(), 0, NAME, ReplaceAll, Buffer(Zeros(512)));
      && v1.ok && Shape(v1.v)
      && var v2 := Write(v1.v, 0, NAME, AppendTo, Buffer([1]));
      && v2.ok && Shape(v2.v) && Read(v2.v, 0, NAME, 1024) != Some(Zeros(512) + [1])
  {
    hide *;
    EmptyShape();
    EmptyBuilt();
    EmptyConsistent();
    EmptyRoot();
    OneCluster();
    SmallSources();
    NameIsFine();
    var v0 := EmptyVolume();
    WriteLaysOut(v0, 2, [], NAME, Zeros(512));
    var out := Write(v0, 0, NAME, ReplaceAll, Buffer(Zeros(512)));
    var ch, t := WriteStep(v0, map[], EmptyTree(), 0, NAME, ReplaceAll, Buffer(Zeros(512)));
    WriteDoneParts(v0, map[], EmptyTree(), 0, NAME, ReplaceAll, Buffer(Zeros(512)), out, ch, t);
    ReachedParts(v0, map[], EmptyTree(), 0, NAME, ReplaceAll, Buffer(Zeros(512)), out, ch, t);
    var rec := Lookup(t, 0, NAME).value;
    StoredParts(v0, map[], Before(EmptyTree(), 0, NAME), ReplaceAll, Buffer(Zeros(512)), out, ch, rec);
    InvParts(out.v, ch, t);
    HoldsContents(out.v, ch, rec, Zeros(512));
    HoldsSize(out.v, ch, rec, Zeros(512));
    BeforeEntry(out.v, ch, t, 0, NAME);
    AtBoundary();
    AppendByteSucceeds(out.v, ch, t, 0, NAME);
    AppendIffInsideCluster(out.v, ch, t, 0, NAME, Buffer([1]), 1024);
  }

  lemma AtBoundary()
    ensures !EndsInside(512, 512) && Rem(512, 512) == 0
  {
  }

  lemma HoldsSize(v: Volume, ch: Chains, rec: Record, bytes: seq<byte>)
    requires Holds(v, ch, rec, bytes)
    ensures rec.Entry? && rec.size == |bytes| && (bytes != [] ==> rec.head >= 2 || rec.head in ch)
  {
  }

  // ---------------------------------------------------------------- a mkdir on a full volume

  // the name "D", padded with blanks
  const DIR_NAME: ShortName := [68, 32, 32, 32, 32, 32, 32, 32, 32, 32, 32]
  const ALL_BYTES: nat := 62464

  lemma AllClusters()
    ensures Clusters(ALL_BYTES, 512) == 122 && ALL_BYTES > 0
  {
    ClustersIsCeiling(ALL_BYTES, 512);
    QuotRemAre(ALL_BYTES + 511, 512);
    hide Clusters, Quot;
    assert ALL_BYTES + 512 - 1 == ALL_BYTES + 511;
  }

  lemma NamesPrepared()
    ensures PrepareName("A") == Some(NAME) && PrepareName("D") == Some(DIR_NAME) && Nameable(NAME) && Nameable(DIR_NAME) && NAME != DIR_NAME
    ensures NoSlash("A") && NoSlash("D")
  {
    OneLetter("A", NAME);
    OneLetter("D", DIR_NAME);
    assert NAME[0] != DIR_NAME[0];
  }

  lemma OneLetter(s: string, name: ShortName)
    requires |s| == 1 && 'A' <= s[0] <= 'Z' && name[0] == s[0] as int && forall i :: 1 <= i < 11 ==> name[i] == 32
    ensures PrepareName(s) == Some(name)
  {
    assert LastIndex(s, '.', 1) == -1;
    var r := Padded(s, 8) + Padded([], 3);
    assert forall i :: 0 <= i < 11 ==> r[i] == name[i];
    assert r == name;
    assert ShortNameOf(s) == Some(r);
  }

  /** The volume that one file fills. */
  function Full(): Volume {
    LaidOut(Volume(Fat16, 512, 0, EmptyTable(), EmptyBlocks()), 2, 0, NAME, Zeros(ALL_BYTES))
  }

  lemma FullIs()
    ensures EmptyVolume().csize == 512 && Full() == LaidOut(EmptyVolume(), 2, 0, NAME, Zeros(ALL_BYTES))
  {
  }

  /** Linked clusters are taken, the others as free as before. */
  lemma LinkedTable(v: Volume, n: nat, need: nat)
    requires |v.fat| == 124 && 2 <= n && need > 0 && n + need <= 124
    requires forall c :: 2 <= c < 124 ==> (v.fat[c] == 0 <==> c >= n)
    ensures var fat' := Link(Fat16, v.fat, Run(n, need));
      |fat'| == 124 && forall c :: 2 <= c < 124 ==> (fat'[c] == 0 <==> c >= n + need)
  {
    hide Run;
    RunCons(n, need);
    LinkCons(Fat16, v.fat, Run(n, need));
    AttachRun(Fat16, v.fat[n := Eoc(Fat16)], n, n + 1, need - 1);
  }

  lemma BuiltTable(v: Volume, n: nat, names: seq<ShortName>)
    requires Built(v, n, names)
    ensures |v.fat| == |v.data| == 124 && v.csize == 512 && v.kind == Fat16 && forall c :: 2 <= c < 124 ==> (v.fat[c] == 0 <==> c >= n)
  {
  }

  /** It has no free cluster, and one record in its root. */
  lemma FullBuilt()
    ensures Built(Full(), 124, [NAME])
  {
    hide *;
    var v, bytes := EmptyVolume(), Zeros(ALL_BYTES);
    EmptyBuilt();
    FullIs();
    NamesPrepared();
    AllClusters();
    ZerosLength(ALL_BYTES);
    BuiltTable(v, 2, []);
    LaidOutIs(v, 2, 0, NAME, bytes);
    LinkedTable(v, 2, 122);
    RootUntouched(v, 2, 122, bytes);
    var w := v.(fat := Link(v.kind, v.fat, Run(2, 122)), data := Fill(v.data, Run(2, 122), bytes, 512));
    BuiltStep(v, 2, [], NAME, 122, w, 2, ALL_BYTES);
    assert [] + [NAME] == [NAME];
  }

  lemma ZerosLength(n: nat)
    ensures |Zeros(n)| == n
  {
  }

  lemma SizedZeros()
    ensures Sized(Buffer(Zeros(ALL_BYTES))) && BytesOf(Buffer(Zeros(ALL_BYTES))) == Zeros(ALL_BYTES)
  {
  }

  /** In the full volume a mkdir of "D" finds a slot and no cluster. */
  lemma FullStrands(ch: Chains, t: Tree)
    requires Inv(Full(), ch, t)
    ensures Shape(Full()) && Full().kind.Fat16? && 0 in t.view && StrandsAt(Full(), t, "D") && TargetOf(Full(), "D") == Some((0, DIR_NAME))
  {
    hide *;
    var v := Full();
    LimitsAre();
    InvParts(v, ch, t);
    FullBuilt();
    BuiltTable(v, 124, [NAME]);
    BuiltRoot(v, 124, [NAME]);
    RunNone(124);
    RootIsLive(v, ch, t);
    KindRoot(v);
    RootChain(v);
    RootRecords(v.data);
    DirChainIs(v, ch, t, 0);
    DirIsStored(v, ch, t, 0);
    DirStoredParts(v.data, ch, t, 0);
    var dir := BlockRecords(v.data[0]);
    ChainAtRoot(ch);
    RoomAtEnd(dir, [NAME], 0);
    NamesPrepared();
    NotListed(dir, [NAME], DIR_NAME, 0);
    FindRoomAre(dir, DIR_NAME);
    LookupIs(t, 0, DIR_NAME);
    HasRoomIs(t, 0);
    CaseConditions(v, t, 0, DIR_NAME);
    TargetIs(v, ch, t, "D");
    RootTarget(v.kind, t, v.rootHead, "D");
    StrandsAtIs(v, t, "D");
  }

  lemma ChainAtRoot(ch: Chains)
    ensures ChainAt(ch, 0) == [0]
  {
  }

  /**
   On a volume that one file "A" fills, a mkdir of "D" fails and changes the volume: "D/A", which
   stood for nothing, now reads the file "A", and "D" cannot be removed.
   */
  lemma MkdirOnFullVolume()
    ensures Shape(EmptyVolume()) && Shape(Full())
    ensures Write(EmptyVolume(), 0, NAME, ReplaceAll, Buffer(Zeros(ALL_BYTES))) == Outcome(Full(), true)
    ensures var out := Apply(Full(), MakeDir("D"));
      && !out.ok && out.v != Full() && Shape(out.v)
      && ReadPath(Full(), "D/A", ALL_BYTES) == None
      && ReadPath(out.v, "D/A", ALL_BYTES) == Some(Zeros(ALL_BYTES))
      && !Apply(out.v, RemoveFile("D")).ok
  {
    hide *;
    var v0, v, src := EmptyVolume(), Full(), Buffer(Zeros(ALL_BYTES));
    EmptyShape();
    EmptyBuilt();
    EmptyConsistent();
    EmptyRoot();
    FullIs();
    NamesPrepared();
    SizedZeros();
    AllClusters();
    ZerosLength(ALL_BYTES);
    LimitsAre();
    WriteLaysOut(v0, 2, [], NAME, Zeros(ALL_BYTES));
    var ch, t := WriteStep(v0, map[], EmptyTree(), 0, NAME, ReplaceAll, src);
    WriteDoneParts(v0, map[], EmptyTree(), 0, NAME, ReplaceAll, src, Outcome(v, true), ch, t);
    FullStrands(ch, t);
    ReadAfterWrite(v0, map[], EmptyTree(), 0, NAME, src, ALL_BYTES);
    TargetIs(v, ch, t, "A");
    RootTarget(v.kind, t, v.rootHead, "A");
    KindRoot(v);
    ReadByTarget(v, "A", ALL_BYTES);
    PlainSegments("D");
    OneFits();
    assert "D" + "/" + "A" == "D/A";
    StrandedAliasesRoot(v, ch, t, "D", "A", ALL_BYTES);
    StrandedStuck(v, ch, t);
  }

  lemma OneFits()
    ensures AllFit(["D"])
  {
  }

  lemma StrandedStuck(v: Volume, ch: Chains, t: Tree)
    requires Inv(v, ch, t) && Shape(v) && v.kind.Fat16? && StrandsAt(v, t, "D") && TargetOf(v, "D") == Some((0, DIR_NAME)) && 0 in t.view
    ensures var out := Apply(v, MakeDir("D")); out.v != v && Shape(out.v) && !Apply(out.v, RemoveFile("D")).ok
  {
    hide *;
    var out := Apply(v, MakeDir("D"));
    NamesPrepared();
    StrandsAtIs(v, t, "D");
    NotBoth(v, t, 0, DIR_NAME);
    MkdirByPath(v, ch, t, "D", "D", 1);
    ByTarget(v, MakeDir("D"), 0);
    MkdirCases(v, ch, t, 0, DIR_NAME);
    var ch', t' := FailedMkdirIff(v, ch, t, 0, DIR_NAME);
    OpLayout(v, 0, DIR_NAME, ReplaceAll, Null(0));
    LayoutIs(v, out.v);
    RootIsLive(out.v, ch', t');
    KindRoot(out.v);
    HoldsIs(out.v, ch', t', 0, DIR_NAME);
    StrandedRemove(out.v, ch', t', 0, DIR_NAME);
    ByTarget(out.v, RemoveFile("D"), 0);
  }
}
