/** The seven commands of the command line: what the controllers print for it, and what it makes of that. */
module Commands {
  import opened Wrappers
  import opened Decimal
  import opened Flags
  import Envelope

  /** What most commands are told first. */
  datatype Target = Target(namespace: string, chain: string, node: string, deployMethod: string, action: string)

  datatype BackupOptions = BackupOptions(
    target: Target, sourcePath: string, destPath: string, compress: bool, compressType: string, output: string)

  datatype RestoreOptions = RestoreOptions(
    target: Target, sourcePath: string, destPath: string, decompress: bool, md5: string, input: string,
    deleteConsensusData: bool)

  /** For snapshot, fallback and snapshot-recover; a snapshot never deletes consensus data. */
  datatype HeightOptions = HeightOptions(
    target: Target, blockHeight: int, crypto: string, consensus: string, deleteConsensusData: bool)

  datatype ChownOptions = ChownOptions(target: Target, uid: int, gid: int)

  datatype SwitchoverOptions = SwitchoverOptions(namespace: string, chain: string, sourceNode: string, destNode: string)

  /***** Flag tables *****/

  function TargetFlags(chain: string): Values {
    map[Namespace := Text("default"), Chain := Text(chain), Node := Text(""),
        DeployMethod := Text("cloud-config"), Action := Text("StopAndStart")]
  }

  function BackupFlags(): Values {
    TargetFlags("test-node") +
    map[SourcePath := Text("/backup-source"), DestPath := Text("/backup-dest"), Compress := Switch(false),
        CompressType := Text("gzip"), Output := Text("")]
  }

  function RestoreFlags(): Values {
    TargetFlags("test-node") +
    map[SourcePath := Text("/restore-source"), DestPath := Text("/restore-dest"), Decompress := Switch(false),
        Md5 := Text(""), Input := Text(""), DeleteConsensusData := Switch(false)]
  }

  function HeightFlags(chain: string): Values {
    TargetFlags(chain) +
    map[BlockHeight := Number(999999999), Crypto := Text("sm"), Consensus := Text("bft")]
  }

  function SnapshotFlags(): Values {
    HeightFlags("test-node")
  }

  function FallbackFlags(): Values {
    HeightFlags("test-chain")[DeleteConsensusData := Switch(false)]
  }

  function SnapshotRecoverFlags(): Values {
    HeightFlags("test-node")[DeleteConsensusData := Switch(false)]
  }

  function ChownFlags(): Values {
    TargetFlags("test-node") + map[Uid := Number(1000), Gid := Number(1000)]
  }

  function SwitchoverFlags(): Values {
    map[Namespace := Text("default"), Chain := Text("test-node"), SourceNode := Text(""), DestNode := Text("")]
  }

  /***** What the flags are bound to *****/

  function TextOf(v: Values, n: Name): string {
    if n in v && v[n].Text? then v[n].text else ""
  }

  function NumberOf(v: Values, n: Name): int {
    if n in v && v[n].Number? then v[n].number else 0
  }

  function IsOn(v: Values, n: Name): bool {
    n in v && v[n].Switch? && v[n].on
  }

  function TargetOf(v: Values): Target {
    Target(TextOf(v, Namespace), TextOf(v, Chain), TextOf(v, Node), TextOf(v, DeployMethod), TextOf(v, Action))
  }

  function BackupOf(v: Values): BackupOptions {
    BackupOptions(TargetOf(v), TextOf(v, SourcePath), TextOf(v, DestPath), IsOn(v, Compress),
                  TextOf(v, CompressType), TextOf(v, Output))
  }

  function RestoreOf(v: Values): RestoreOptions {
    RestoreOptions(TargetOf(v), TextOf(v, SourcePath), TextOf(v, DestPath), IsOn(v, Decompress),
                   TextOf(v, Md5), TextOf(v, Input), IsOn(v, DeleteConsensusData))
  }

  function HeightOf(v: Values): HeightOptions {
    HeightOptions(TargetOf(v), NumberOf(v, BlockHeight), TextOf(v, Crypto), TextOf(v, Consensus),
                  IsOn(v, DeleteConsensusData))
  }

  function ChownOf(v: Values): ChownOptions {
    ChownOptions(TargetOf(v), NumberOf(v, Uid), NumberOf(v, Gid))
  }

  function SwitchoverOf(v: Values): SwitchoverOptions {
    SwitchoverOptions(TextOf(v, Namespace), TextOf(v, Chain), TextOf(v, SourceNode), TextOf(v, DestNode))
  }

  /***** What the controllers print *****/

  function TargetSettings(t: Target): seq<Setting> {
    [Setting(Namespace, Text(t.namespace)), Setting(Chain, Text(t.chain)), Setting(Node, Text(t.node)),
     Setting(DeployMethod, Text(t.deployMethod)), Setting(Action, Text(t.action))]
  }

  function When(b: bool, settings: seq<Setting>): seq<Setting> {
    if b then settings else []
  }

  function PathSettings(sourcePath: string, destPath: string): seq<Setting> {
    [Setting(SourcePath, Text(sourcePath)), Setting(DestPath, Text(destPath))]
  }

  function BackupSettings(t: Target): seq<Setting> {
    TargetSettings(t)
  }

  /** Compression type and file, when compression is asked for. */
  datatype Compression = Compression(cType: string, file: string)

  function DuplicateSettings(t: Target, name: string, sourcePath: string, destPath: string,
                             compress: Option<Compression>): seq<Setting>
  {
    TargetSettings(t) + PathSettings(sourcePath, destPath) + CompressSettings(name, compress)
  }

  function CompressSettings(name: string, compress: Option<Compression>): seq<Setting> {
    match compress
    case None => []
    case Some(c) =>
      [Setting(Compress, Switch(true)), Setting(CompressType, Text(c.cType)),
       Setting(Output, Text(if c.file != "" then c.file else name))]
  }

  function RestoreFileSettings(t: Target, deleteConsensusData: bool): seq<Setting> {
    TargetSettings(t) + When(deleteConsensusData, [Setting(DeleteConsensusData, Switch(true))])
  }

  datatype Decompression = Decompression(md5: string, file: string)

  function RecoverSettings(t: Target, sourcePath: string, destPath: string, decompress: Option<Decompression>,
                           deleteConsensusData: bool): seq<Setting>
  {
    TargetSettings(t) + PathSettings(sourcePath, destPath) + DecompressSettings(decompress) +
    When(deleteConsensusData, [Setting(DeleteConsensusData, Switch(true))])
  }

  function DecompressSettings(decompress: Option<Decompression>): seq<Setting> {
    match decompress
    case None => []
    case Some(d) => [Setting(Decompress, Switch(true)), Setting(Md5, Text(d.md5)), Setting(Input, Text(d.file))]
  }

  /** Snapshot, fallback and snapshot-recover; fallback prints the node after the height. */
  function HeightSettings(o: HeightOptions): seq<Setting> {
    TargetSettings(o.target) + [Setting(BlockHeight, Number(o.blockHeight))] +
    When(o.crypto != "", [Setting(Crypto, Text(o.crypto))]) + [Setting(Consensus, Text(o.consensus))] +
    When(o.deleteConsensusData, [Setting(DeleteConsensusData, Switch(true))])
  }

  function FallbackTarget(t: Target, height: int): seq<Setting> {
    [Setting(Namespace, Text(t.namespace)), Setting(Chain, Text(t.chain)),
     Setting(DeployMethod, Text(t.deployMethod)), Setting(Action, Text(t.action)),
     Setting(BlockHeight, Number(height)), Setting(Node, Text(t.node))]
  }

  function FallbackSettings(o: HeightOptions): seq<Setting> {
    FallbackTarget(o.target, o.blockHeight) +
    When(o.crypto != "", [Setting(Crypto, Text(o.crypto))]) + [Setting(Consensus, Text(o.consensus))] +
    When(o.deleteConsensusData, [Setting(DeleteConsensusData, Switch(true))])
  }

  function ChownSettings(o: ChownOptions): seq<Setting> {
    TargetSettings(o.target) + [Setting(Uid, Number(o.uid)), Setting(Gid, Number(o.gid))]
  }

  function SwitchoverSettings(o: SwitchoverOptions): seq<Setting> {
    [Setting(Namespace, Text(o.namespace)), Setting(Chain, Text(o.chain)),
     Setting(SourceNode, Text(o.sourceNode)), Setting(DestNode, Text(o.destNode))]
  }

  /***** Round trips *****/

  /** The command line's view of arguments that follow the command's name. */
  function Understood(table: Values, args: seq<string>): Parsed {
    ParseArgs(Parsed(table, [], None), args)
  }

  /** A command understands printed settings, whatever the texts. */
  lemma UnderstandsPrinted(table: Values, settings: seq<Setting>)
    requires forall i :: 0 <= i < |settings| ==> Fits(table, settings[i])
    ensures Understood(table, Print(settings)) == Parsed(SetAll(table, settings), [], None)
  {
    ParsePrinted(Parsed(table, [], None), settings);
  }

  /** v has the flags of a target. */
  predicate TakesTarget(v: Values) {
    forall n <- {Namespace, Chain, Node, DeployMethod, Action} :: n in v && v[n].Text?
  }

  /** v once the flags of a target are understood. */
  function Aimed(v: Values, t: Target): Values {
    v[Namespace := Text(t.namespace)][Chain := Text(t.chain)][Node := Text(t.node)]
     [DeployMethod := Text(t.deployMethod)][Action := Text(t.action)]
  }

  lemma SetTarget(v: Values, t: Target)
    requires TakesTarget(v)
    ensures forall i :: 0 <= i < |TargetSettings(t)| ==> Fits(v, TargetSettings(t)[i])
    ensures SetAll(v, TargetSettings(t)) == Aimed(v, t)
  {
    var s := TargetSettings(t);
    assert s == s[..4] + [s[4]] && s[..4] == s[..3] + [s[3]] && s[..3] == s[..2] + [s[2]] && s[..2] == [s[0]] + [s[1]];
    SetOneMore(v, s[..4], s[4]);
    SetOneMore(v, s[..3], s[3]);
    SetOneMore(v, s[..2], s[2]);
    SetOneMore(v, [s[0]], s[1]);
    SetOne(v, s[0]);
  }

  /** Settings that follow others: what fits the table fits it whatever was set before. */
  lemma ThenSet(v: Values, a: seq<Setting>, b: seq<Setting>)
    requires forall i :: 0 <= i < |a| ==> Fits(v, a[i])
    requires forall i :: 0 <= i < |b| ==> Fits(v, b[i])
    ensures forall i :: 0 <= i < |a + b| ==> Fits(v, (a + b)[i])
    ensures SetAll(v, a + b) == SetAll(SetAll(v, a), b)
  {
    SetAllAppend(v, a, b);
  }

  lemma SetTwo(v: Values, s: Setting, t: Setting)
    ensures SetAll(v, [s, t]) == v[s.name := s.value][t.name := t.value]
  {
    assert [s] + [t] == [s, t];
    SetOneMore(v, [s], t);
    SetOne(v, s);
  }

  lemma SetThree(v: Values, s: Setting, t: Setting, u: Setting)
    ensures SetAll(v, [s, t, u]) == v[s.name := s.value][t.name := t.value][u.name := u.value]
  {
    assert [s, t] + [u] == [s, t, u];
    SetOneMore(v, [s, t], u);
    SetTwo(v, s, t);
  }

  predicate TakesTexts(v: Values, names: set<Name>) {
    forall n <- names :: n in v && v[n].Text?
  }

  predicate TakesSwitch(v: Values, n: Name) {
    n in v && v[n].Switch?
  }

  predicate TakesNumber(v: Values, n: Name) {
    n in v && v[n].Number?
  }

  /***** backup *****/

  predicate TakesBackup(v: Values) {
    TakesTarget(v) && TakesTexts(v, {SourcePath, DestPath, CompressType, Output}) && TakesSwitch(v, Compress)
  }

  lemma BackupKinds()
    ensures TakesBackup(BackupFlags())
  {
  }

  lemma BackupDefaults()
    ensures BackupOf(BackupFlags()) ==
            BackupOptions(Target("default", "test-node", "", "cloud-config", "StopAndStart"),
                          "/backup-source", "/backup-dest", false, "gzip", "")
  {
  }

  lemma BackupAimed(v: Values, t: Target)
    ensures BackupOf(Aimed(v, t)) == BackupOf(v).(target := t)
    ensures TakesBackup(v) ==> TakesBackup(Aimed(v, t))
  {
  }

  lemma BackupUnderstood(v: Values, t: Target)
    requires TakesBackup(v)
    ensures var p := Understood(v, Print(BackupSettings(t)));
            p.error == None && BackupOf(p.values) == BackupOf(v).(target := t)
  {
    SetTarget(v, t);
    BackupAimed(v, t);
    UnderstandsPrinted(v, BackupSettings(t));
  }

  /** What a Backup prints: its target, and the defaults for the rest. */
  lemma BackupRoundTrip(t: Target)
    ensures var p := Understood(BackupFlags(), Print(BackupSettings(t)));
            p.error == None && BackupOf(p.values) == BackupOptions(t, "/backup-source", "/backup-dest", false, "gzip", "")
  {
    BackupKinds();
    BackupDefaults();
    BackupUnderstood(BackupFlags(), t);
  }

  lemma SetPaths(v: Values, t: Target, sourcePath: string, destPath: string)
    requires TakesTarget(v) && TakesTexts(v, {SourcePath, DestPath})
    ensures var s := TargetSettings(t) + PathSettings(sourcePath, destPath);
            && (forall i :: 0 <= i < |s| ==> Fits(v, s[i]))
            && SetAll(v, s) == Aimed(v, t)[SourcePath := Text(sourcePath)][DestPath := Text(destPath)]
  {
    var paths := PathSettings(sourcePath, destPath);
    SetTarget(v, t);
    ThenSet(v, TargetSettings(t), paths);
    SetTwo(Aimed(v, t), paths[0], paths[1]);
  }

  /** v once the settings of a Duplicate are understood. */
  function DuplicateSet(v: Values, t: Target, name: string, sourcePath: string, destPath: string,
                        compress: Option<Compression>): Values
  {
    var w := Aimed(v, t)[SourcePath := Text(sourcePath)][DestPath := Text(destPath)];
    match compress
    case None => w
    case Some(c) =>
      w[Compress := Switch(true)][CompressType := Text(c.cType)][Output := Text(if c.file != "" then c.file else name)]
  }

  lemma DuplicateSetReads(v: Values, t: Target, name: string, sourcePath: string, destPath: string,
                          compress: Option<Compression>)
    ensures BackupOf(DuplicateSet(v, t, name, sourcePath, destPath, compress)) ==
              var base := BackupOf(v).(target := t, sourcePath := sourcePath, destPath := destPath);
              match compress
              case None => base
              case Some(c) =>
                base.(compress := true, compressType := c.cType, output := if c.file != "" then c.file else name)
  {
    BackupAimed(v, t);
  }

  lemma DuplicateUnderstood(v: Values, t: Target, name: string, sourcePath: string, destPath: string,
                            compress: Option<Compression>)
    requires TakesBackup(v)
    ensures var p := Understood(v, Print(DuplicateSettings(t, name, sourcePath, destPath, compress)));
            p.error == None && p.values == DuplicateSet(v, t, name, sourcePath, destPath, compress)
  {
    SetPaths(v, t, sourcePath, destPath);
    var more := CompressSettings(name, compress);
    ThenSet(v, TargetSettings(t) + PathSettings(sourcePath, destPath), more);
    if compress.Some? {
      SetThree(SetAll(v, TargetSettings(t) + PathSettings(sourcePath, destPath)), more[0], more[1], more[2]);
    }
    UnderstandsPrinted(v, DuplicateSettings(t, name, sourcePath, destPath, compress));
  }

  /** A Duplicate's output file is the one named, or has the name of the resource. */
  lemma DuplicateRoundTrip(t: Target, name: string, sourcePath: string, destPath: string, compress: Option<Compression>)
    ensures var p := Understood(BackupFlags(), Print(DuplicateSettings(t, name, sourcePath, destPath, compress)));
            && p.error == None
            && BackupOf(p.values) ==
                 match compress
                 case None => BackupOptions(t, sourcePath, destPath, false, "gzip", "")
                 case Some(c) =>
                   BackupOptions(t, sourcePath, destPath, true, c.cType, if c.file != "" then c.file else name)
  {
    BackupKinds();
    BackupDefaults();
    DuplicateUnderstood(BackupFlags(), t, name, sourcePath, destPath, compress);
    DuplicateSetReads(BackupFlags(), t, name, sourcePath, destPath, compress);
  }

  /***** restore *****/

  predicate TakesRestore(v: Values) {
    && TakesTarget(v) && TakesTexts(v, {SourcePath, DestPath, Md5, Input})
    && TakesSwitch(v, Decompress) && TakesSwitch(v, DeleteConsensusData)
  }

  lemma RestoreKinds()
    ensures TakesRestore(RestoreFlags())
  {
  }

  lemma RestoreDefaults()
    ensures RestoreOf(RestoreFlags()) ==
            RestoreOptions(Target("default", "test-node", "", "cloud-config", "StopAndStart"),
                           "/restore-source", "/restore-dest", false, "", "", false)
  {
  }

  lemma RestoreAimed(v: Values, t: Target)
    ensures RestoreOf(Aimed(v, t)) == RestoreOf(v).(target := t)
  {
  }

  /** One optional switch at the end. */
  lemma SetWhen(v: Values, a: seq<Setting>, b: bool, n: Name)
    requires forall i :: 0 <= i < |a| ==> Fits(v, a[i])
    requires TakesSwitch(v, n)
    ensures var s := a + When(b, [Setting(n, Switch(true))]);
            && (forall i :: 0 <= i < |s| ==> Fits(v, s[i]))
            && SetAll(v, s) == if b then SetAll(v, a)[n := Switch(true)] else SetAll(v, a)
  {
    if b {
      SetOneMore(v, a, Setting(n, Switch(true)));
    } else {
      assert a + [] == a;
    }
  }

  lemma RestoreFileUnderstood(v: Values, t: Target, deleteConsensusData: bool)
    requires TakesRestore(v) && !RestoreOf(v).deleteConsensusData
    ensures var p := Understood(v, Print(RestoreFileSettings(t, deleteConsensusData)));
            && p.error == None
            && RestoreOf(p.values) == RestoreOf(v).(target := t, deleteConsensusData := deleteConsensusData)
  {
    RestoreAimed(v, t);
    SetTarget(v, t);
    SetWhen(v, TargetSettings(t), deleteConsensusData, DeleteConsensusData);
    UnderstandsPrinted(v, RestoreFileSettings(t, deleteConsensusData));
  }

  lemma RestoreFileRoundTrip(t: Target, deleteConsensusData: bool)
    ensures var p := Understood(RestoreFlags(), Print(RestoreFileSettings(t, deleteConsensusData)));
            && p.error == None
            && RestoreOf(p.values) ==
                 RestoreOptions(t, "/restore-source", "/restore-dest", false, "", "", deleteConsensusData)
  {
    RestoreKinds();
    RestoreDefaults();
    RestoreFileUnderstood(RestoreFlags(), t, deleteConsensusData);
  }

  /** v once the settings of a Recover are understood. */
  function RecoverSet(v: Values, t: Target, sourcePath: string, destPath: string, decompress: Option<Decompression>,
                      deleteConsensusData: bool): Values
  {
    var w := Aimed(v, t)[SourcePath := Text(sourcePath)][DestPath := Text(destPath)];
    var u := match decompress
             case None => w
             case Some(d) => w[Decompress := Switch(true)][Md5 := Text(d.md5)][Input := Text(d.file)];
    if deleteConsensusData then u[DeleteConsensusData := Switch(true)] else u
  }

  lemma RecoverSetReads(v: Values, t: Target, sourcePath: string, destPath: string, decompress: Option<Decompression>,
                        deleteConsensusData: bool)
    requires !RestoreOf(v).deleteConsensusData
    ensures RestoreOf(RecoverSet(v, t, sourcePath, destPath, decompress, deleteConsensusData)) ==
              var base := RestoreOf(v).(target := t, sourcePath := sourcePath, destPath := destPath,
                                        deleteConsensusData := deleteConsensusData);
              match decompress
              case None => base
              case Some(d) => base.(decompress := true, md5 := d.md5, input := d.file)
  {
    RestoreAimed(v, t);
  }

  lemma RecoverUnderstood(v: Values, t: Target, sourcePath: string, destPath: string, decompress: Option<Decompression>,
                          deleteConsensusData: bool)
    requires TakesRestore(v)
    ensures var p := Understood(v, Print(RecoverSettings(t, sourcePath, destPath, decompress, deleteConsensusData)));
            p.error == None && p.values == RecoverSet(v, t, sourcePath, destPath, decompress, deleteConsensusData)
  {
    SetRecover(v, t, sourcePath, destPath, decompress, deleteConsensusData);
    UnderstandsPrinted(v, RecoverSettings(t, sourcePath, destPath, decompress, deleteConsensusData));
  }

  /** A Recover passes digest and file on even if they are empty; without decompression neither is set. */
  lemma RecoverRoundTrip(t: Target, sourcePath: string, destPath: string, decompress: Option<Decompression>,
                         deleteConsensusData: bool)
    ensures var settings := RecoverSettings(t, sourcePath, destPath, decompress, deleteConsensusData);
            var p := Understood(RestoreFlags(), Print(settings));
            && p.error == None
            && RestoreOf(p.values) ==
                 match decompress
                 case None => RestoreOptions(t, sourcePath, destPath, false, "", "", deleteConsensusData)
                 case Some(d) => RestoreOptions(t, sourcePath, destPath, true, d.md5, d.file, deleteConsensusData)
  {
    RestoreKinds();
    RestoreDefaults();
    RecoverUnderstood(RestoreFlags(), t, sourcePath, destPath, decompress, deleteConsensusData);
    RecoverSetReads(RestoreFlags(), t, sourcePath, destPath, decompress, deleteConsensusData);
  }

  lemma SetRecover(v: Values, t: Target, sourcePath: string, destPath: string, decompress: Option<Decompression>,
                   deleteConsensusData: bool)
    requires TakesRestore(v)
    ensures var s := RecoverSettings(t, sourcePath, destPath, decompress, deleteConsensusData);
            && (forall i :: 0 <= i < |s| ==> Fits(v, s[i]))
            && SetAll(v, s) == RecoverSet(v, t, sourcePath, destPath, decompress, deleteConsensusData)
  {
    SetPaths(v, t, sourcePath, destPath);
    var paths, more := TargetSettings(t) + PathSettings(sourcePath, destPath), DecompressSettings(decompress);
    ThenSet(v, paths, more);
    if decompress.Some? {
      SetThree(SetAll(v, paths), more[0], more[1], more[2]);
    }
    SetWhen(v, paths + more, deleteConsensusData, DeleteConsensusData);
  }

  /***** snapshot, fallback, snapshot-recover *****/

  predicate TakesHeight(v: Values) {
    TakesTarget(v) && TakesTexts(v, {Crypto, Consensus}) && TakesNumber(v, BlockHeight)
  }

  lemma HeightDefaults(chain: string)
    ensures TakesHeight(HeightFlags(chain))
    ensures HeightOf(HeightFlags(chain)) ==
            HeightOptions(Target("default", chain, "", "cloud-config", "StopAndStart"), 999999999, "sm", "bft", false)
  {
  }

  lemma HeightAimed(v: Values, t: Target)
    ensures HeightOf(Aimed(v, t)) == HeightOf(v).(target := t)
  {
  }

  /** The settings that a height-based command has after its target. */
  lemma SetHeight(v: Values, before: seq<Setting>, crypto: string, consensus: string)
    requires TakesHeight(v) && forall i :: 0 <= i < |before| ==> Fits(v, before[i])
    ensures var s := before + When(crypto != "", [Setting(Crypto, Text(crypto))]) + [Setting(Consensus, Text(consensus))];
            && (forall i :: 0 <= i < |s| ==> Fits(v, s[i]))
            && SetAll(v, s) ==
                 (if crypto != "" then SetAll(v, before)[Crypto := Text(crypto)] else SetAll(v, before))
                 [Consensus := Text(consensus)]
  {
    if crypto != "" {
      SetOneMore(v, before, Setting(Crypto, Text(crypto)));
    } else {
      assert before + [] == before;
    }
    var a := before + When(crypto != "", [Setting(Crypto, Text(crypto))]);
    SetOneMore(v, a, Setting(Consensus, Text(consensus)));
  }

  /** v once the settings of a height-based command are understood. */
  function HeightSet(v: Values, o: HeightOptions): Values {
    var w := Aimed(v, o.target)[BlockHeight := Number(o.blockHeight)];
    var u := (if o.crypto != "" then w[Crypto := Text(o.crypto)] else w)[Consensus := Text(o.consensus)];
    if o.deleteConsensusData then u[DeleteConsensusData := Switch(true)] else u
  }

  lemma HeightSetReads(v: Values, o: HeightOptions)
    requires HeightOf(v).crypto == "sm" && !HeightOf(v).deleteConsensusData
    ensures HeightOf(HeightSet(v, o)) == o.(crypto := if o.crypto == "" then "sm" else o.crypto)
  {
    HeightAimed(v, o.target);
  }

  /** What a height-based command makes of what is printed. */
  lemma HeightUnderstood(v: Values, before: seq<Setting>, o: HeightOptions)
    requires TakesHeight(v) && (o.deleteConsensusData ==> TakesSwitch(v, DeleteConsensusData))
    requires forall i :: 0 <= i < |before| ==> Fits(v, before[i])
    requires SetAll(v, before) == Aimed(v, o.target)[BlockHeight := Number(o.blockHeight)]
    ensures var s := before + When(o.crypto != "", [Setting(Crypto, Text(o.crypto))])
                     + [Setting(Consensus, Text(o.consensus))]
                     + When(o.deleteConsensusData, [Setting(DeleteConsensusData, Switch(true))]);
            Understood(v, Print(s)) == Parsed(HeightSet(v, o), [], None)
  {
    SetHeight(v, before, o.crypto, o.consensus);
    var a := before + When(o.crypto != "", [Setting(Crypto, Text(o.crypto))]) + [Setting(Consensus, Text(o.consensus))];
    if o.deleteConsensusData {
      SetWhen(v, a, true, DeleteConsensusData);
    } else {
      assert a + [] == a;
    }
    UnderstandsPrinted(v, a + When(o.deleteConsensusData, [Setting(DeleteConsensusData, Switch(true))]));
  }

  lemma SetTargetAndHeight(v: Values, t: Target, height: int)
    requires TakesTarget(v) && TakesNumber(v, BlockHeight) && IsInt64(height)
    ensures var s := TargetSettings(t) + [Setting(BlockHeight, Number(height))];
            (forall i :: 0 <= i < |s| ==> Fits(v, s[i])) && SetAll(v, s) == Aimed(v, t)[BlockHeight := Number(height)]
  {
    SetTarget(v, t);
    SetOneMore(v, TargetSettings(t), Setting(BlockHeight, Number(height)));
  }

  lemma SetFallbackTarget(v: Values, t: Target, height: int)
    requires TakesTarget(v) && TakesNumber(v, BlockHeight) && IsInt64(height)
    ensures var s := FallbackTarget(t, height);
            (forall i :: 0 <= i < |s| ==> Fits(v, s[i])) && SetAll(v, s) == Aimed(v, t)[BlockHeight := Number(height)]
  {
    var s := FallbackTarget(t, height);
    assert s == [s[0], s[1], s[2]] + [s[3], s[4], s[5]];
    SetAllAppend(v, [s[0], s[1], s[2]], [s[3], s[4], s[5]]);
    SetThree(v, s[0], s[1], s[2]);
    SetThree(SetAll(v, [s[0], s[1], s[2]]), s[3], s[4], s[5]);
  }

  /** An omitted crypto is understood as the default; everything else as it was meant. */
  lemma SnapshotRoundTrip(o: HeightOptions)
    requires IsInt64(o.blockHeight) && !o.deleteConsensusData
    ensures var p := Understood(SnapshotFlags(), Print(HeightSettings(o)));
            && p.error == None
            && HeightOf(p.values) ==
                 HeightOptions(o.target, o.blockHeight, if o.crypto == "" then "sm" else o.crypto, o.consensus,
                               o.deleteConsensusData)
  {
    HeightDefaults("test-node");
    SetTargetAndHeight(SnapshotFlags(), o.target, o.blockHeight);
    HeightUnderstood(SnapshotFlags(), TargetSettings(o.target) + [Setting(BlockHeight, Number(o.blockHeight))], o);
    HeightSetReads(SnapshotFlags(), o);
  }

  lemma DeletingFlags(v: Values)
    requires TakesHeight(v)
    ensures var w := v[DeleteConsensusData := Switch(false)];
            && TakesHeight(w) && TakesSwitch(w, DeleteConsensusData)
            && HeightOf(w) == HeightOf(v).(deleteConsensusData := false)
  {
  }

  lemma SnapshotRecoverRoundTrip(o: HeightOptions)
    requires IsInt64(o.blockHeight)
    ensures var p := Understood(SnapshotRecoverFlags(), Print(HeightSettings(o)));
            && p.error == None
            && HeightOf(p.values) ==
                 HeightOptions(o.target, o.blockHeight, if o.crypto == "" then "sm" else o.crypto, o.consensus,
                               o.deleteConsensusData)
  {
    HeightDefaults("test-node");
    DeletingFlags(HeightFlags("test-node"));
    SetTargetAndHeight(SnapshotRecoverFlags(), o.target, o.blockHeight);
    HeightUnderstood(SnapshotRecoverFlags(), TargetSettings(o.target) + [Setting(BlockHeight, Number(o.blockHeight))], o);
    HeightSetReads(SnapshotRecoverFlags(), o);
  }

  lemma FallbackRoundTrip(o: HeightOptions)
    requires IsInt64(o.blockHeight)
    ensures var p := Understood(FallbackFlags(), Print(FallbackSettings(o)));
            && p.error == None
            && HeightOf(p.values) ==
                 HeightOptions(o.target, o.blockHeight, if o.crypto == "" then "sm" else o.crypto, o.consensus,
                               o.deleteConsensusData)
  {
    HeightDefaults("test-chain");
    DeletingFlags(HeightFlags("test-chain"));
    SetFallbackTarget(FallbackFlags(), o.target, o.blockHeight);
    HeightUnderstood(FallbackFlags(), FallbackTarget(o.target, o.blockHeight), o);
    HeightSetReads(FallbackFlags(), o);
  }

  /***** chown, switchover *****/

  lemma ChownDefaults()
    ensures TakesTarget(ChownFlags()) && TakesNumber(ChownFlags(), Uid) && TakesNumber(ChownFlags(), Gid)
  {
  }

  lemma ChownRoundTrip(o: ChownOptions)
    requires IsInt64(o.uid) && IsInt64(o.gid)
    ensures var p := Understood(ChownFlags(), Print(ChownSettings(o)));
            p.error == None && ChownOf(p.values) == o
  {
    ChownDefaults();
    ChownUnderstood(ChownFlags(), o);
  }

  lemma ChownUnderstood(v: Values, o: ChownOptions)
    requires TakesTarget(v) && TakesNumber(v, Uid) && TakesNumber(v, Gid) && IsInt64(o.uid) && IsInt64(o.gid)
    ensures var p := Understood(v, Print(ChownSettings(o)));
            p.error == None && ChownOf(p.values) == o
  {
    var ids := [Setting(Uid, Number(o.uid)), Setting(Gid, Number(o.gid))];
    SetTarget(v, o.target);
    ThenSet(v, TargetSettings(o.target), ids);
    SetTwo(Aimed(v, o.target), ids[0], ids[1]);
    UnderstandsPrinted(v, ChownSettings(o));
  }

  /** What a command takes when action, uid and gid are not given. */
  lemma OmittedFlags(chain: string)
    ensures TextOf(TargetFlags(chain), Action) == "StopAndStart"
    ensures NumberOf(ChownFlags(), Uid) == NumberOf(ChownFlags(), Gid) == 1000
  {
  }

  lemma SwitchoverDefaults()
    ensures TakesTexts(SwitchoverFlags(), {Namespace, Chain, SourceNode, DestNode})
  {
  }

  lemma SwitchoverRoundTrip(o: SwitchoverOptions)
    ensures var p := Understood(SwitchoverFlags(), Print(SwitchoverSettings(o)));
            p.error == None && SwitchoverOf(p.values) == o
  {
    SwitchoverDefaults();
    SwitchoverUnderstood(SwitchoverFlags(), o);
  }

  lemma SwitchoverUnderstood(v: Values, o: SwitchoverOptions)
    requires TakesTexts(v, {Namespace, Chain, SourceNode, DestNode})
    ensures var p := Understood(v, Print(SwitchoverSettings(o)));
            p.error == None && SwitchoverOf(p.values) == o
  {
    var s := SwitchoverSettings(o);
    assert s == [s[0], s[1]] + [s[2], s[3]];
    SetAllAppend(v, [s[0], s[1]], [s[2], s[3]]);
    SetTwo(v, s[0], s[1]);
    SetTwo(SetAll(v, [s[0], s[1]]), s[2], s[3]);
    UnderstandsPrinted(v, s);
  }

  /***** After parsing *****/

  predicate KnownDeployMethod(s: string) {
    s == "helm" || s == "python" || s == "cloud-config"
  }

  /** The creators that the packages of the three kinds register under their deploy methods. */
  class Registry {
    var nodes: map<string, NodeKind>

    /** Registrations happen as the packages are initialized, in any order. */
    constructor ()
      ensures nodes.Keys == {"helm", "python", "cloud-config"}
      ensures nodes["helm"] == HelmNode && nodes["python"] == PythonNode && nodes["cloud-config"] == CloudConfigNode
    {
      nodes := map[];
      new;
      MethodsDiffer();
      Register("cloud-config", CloudConfigNode);
      Register("helm", HelmNode);
      Register("python", PythonNode);
    }

    method Register(deployMethod: string, kind: NodeKind)
      modifies this
      ensures nodes == old(nodes)[deployMethod := kind]
    {
      nodes := nodes[deployMethod := kind];
    }

    method CreateNode(deployMethod: string) returns (kind: Option<NodeKind>)
      ensures kind == if deployMethod in nodes then Some(nodes[deployMethod]) else None
    {
      if deployMethod in nodes { return Some(nodes[deployMethod]); }
      return None;
    }
  }

  lemma MethodsDiffer()
    ensures "helm" != "python" && "helm" != "cloud-config" && "python" != "cloud-config"
    ensures "" !in {"helm", "python", "cloud-config"} && "StopAndStart" != "Direct"
  {
    assert |"StopAndStart"| == 12 && |"Direct"| == 6;
    assert |"helm"| == 4 && |"python"| == 6 && |"cloud-config"| == 12;
  }

  /** From the parsed flags to the node, on which the command then works; None means that it exits with an error.
   *  Fallback is the one command that does not check the deploy method; for it, too, a command gets to a node
   *  exactly when deploy method and action are known, and the node is of the kind and the action the one given. */
  method Dispatch(checksDeployMethod: bool, t: Target) returns (r: Option<(NodeKind, Envelope.Action)>)
    ensures r.Some? <==>
              && (t.deployMethod == "helm" || t.deployMethod == "python" || t.deployMethod == "cloud-config")
              && (t.action == "StopAndStart" || t.action == "Direct")
    ensures r.Some? ==>
              && (t.deployMethod == "helm" ==> r.value.0 == HelmNode)
              && (t.deployMethod == "python" ==> r.value.0 == PythonNode)
              && (t.deployMethod == "cloud-config" ==> r.value.0 == CloudConfigNode)
              && (t.action == "StopAndStart" ==> r.value.1 == Envelope.StopAndStart)
              && (t.action == "Direct" ==> r.value.1 == Envelope.Direct)
  {
    MethodsDiffer();
    var dm := "";
    if t.deployMethod == "helm" {
      dm := "helm";
    } else if t.deployMethod == "python" {
      dm := "python";
    } else if t.deployMethod == "cloud-config" {
      dm := "cloud-config";
    } else if checksDeployMethod {
      return None;
    }
    var action: Envelope.Action;
    if t.action == "StopAndStart" {
      action := Envelope.StopAndStart;
    } else if t.action == "Direct" {
      action := Envelope.Direct;
    } else {
      return None;
    }
    var registry := new Registry();
    var kind := registry.CreateNode(dm);
    if kind.None? { return None; }
    r := Some((kind.value, action));
  }
}
