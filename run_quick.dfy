/** The quick-run driver (jmecofftea/scripts/run_quick.py): picks the
    processor and input tree from the command-line name, points `/store/`
    files at the global xrootd redirector and names the output files. */
module RunQuick {
  import opened Common

  /** The processors the driver can run. */
  datatype ProcessorKind = HltKind | JmeNanoKind

  /** The processor to instantiate and the tree to read. */
  datatype Dispatched = Dispatched(kind: ProcessorKind, treename: string)

  /** The executor arguments: the worker count and the custom-ntuple flag. */
  datatype ExecutorArgs = ExecutorArgs(workers: nat, jmenano: bool)

  /** What main sets up before running the executor dataset by dataset. */
  datatype RunPlan = RunPlan(dispatched: Dispatched, executor: ExecutorArgs, fileset: map<string, seq<string>>)

  const StorePrefix: string := "/store/"

  const Redirector: string := "root://cms-xrd-global.cern.ch//"

  predicate StartsWith(s: string, prefix: string)
  {
    |prefix| <= |s| && s[..|prefix|] == prefix
  }

  /** The processor dispatch: "hlt" reads `Events`, "jmenano" reads
      `JMETriggerNTuple/Events`, any other name is a ValueError. */
  method Dispatch(name: string) returns (r: Result<Dispatched>)
    ensures name == "hlt" ==> r == Ok(Dispatched(HltKind, "Events"))
    ensures name == "jmenano" ==> r == Ok(Dispatched(JmeNanoKind, "JMETriggerNTuple/Events"))
    ensures name != "hlt" && name != "jmenano" ==> r == Err(UnknownProcessor(name))
  {
    if name == "hlt" {
      r := Ok(Dispatched(HltKind, "Events"));
    } else if name == "jmenano" {
      r := Ok(Dispatched(JmeNanoKind, "JMETriggerNTuple/Events"));
    } else {
      r := Err(UnknownProcessor(name));
    }
  }

  /** One file after the rewrite. */
  function RewritePath(file: string): string
  {
    if StartsWith(file, StorePrefix) then Redirector + file else file
  }

  /** The file list after the rewrite, file by file. */
  function RewriteList(files: seq<string>): (out: seq<string>)
    ensures |out| == |files|
    ensures forall i :: 0 <= i < |files| ==> out[i] == RewritePath(files[i])
  {
    seq(|files|, i requires 0 <= i < |files| => RewritePath(files[i]))
  }

  /** A rewritten path no longer starts with `/store/`: it starts with the
      redirector, or it never started with `/store/`. */
  lemma RewrittenNotStore(file: string)
    ensures !StartsWith(RewritePath(file), StorePrefix)
    ensures StartsWith(file, StorePrefix) ==> StartsWith(RewritePath(file), Redirector)
  {
    if StartsWith(file, StorePrefix) {
      var w := Redirector + file;
      assert w[0] == 'r' && StorePrefix[0] == '/';
      assert w[..|Redirector|] == Redirector;
    }
  }

  /** Rewriting twice is rewriting once. */
  lemma RewriteIdempotent(files: seq<string>)
    ensures RewriteList(RewriteList(files)) == RewriteList(files)
  {
    forall i | 0 <= i < |files|
      ensures RewritePath(RewritePath(files[i])) == RewritePath(files[i])
    {
      RewrittenNotStore(files[i]);
    }
  }

  /** The inner loop: builds the new list by appending each file, rewritten
      when it starts with `/store/`. */
  method RewriteFiles(files: seq<string>) returns (newlist: seq<string>)
    ensures newlist == RewriteList(files)
  {
    newlist := [];
    for i := 0 to |files|
      invariant newlist == RewriteList(files[..i])
    {
      var file := files[i];
      if StartsWith(file, StorePrefix) {
        newlist := newlist + [Redirector + file];
      } else {
        newlist := newlist + [file];
      }
    }
    assert files[..|files|] == files;
  }

  /** The outer loop: every dataset's list replaced by its rewritten list. */
  method RewriteFileset(fileset: map<string, seq<string>>) returns (out: map<string, seq<string>>)
    ensures out.Keys == fileset.Keys
    ensures forall d :: d in out ==> out[d] == RewriteList(fileset[d])
  {
    out := fileset;
    var todo := fileset.Keys;
    while todo != {}
      invariant todo <= fileset.Keys && out.Keys == fileset.Keys
      invariant forall d :: d in out ==> out[d] == if d in todo then fileset[d] else RewriteList(fileset[d])
      decreases todo
    {
      var dataset :| dataset in todo;
      var newlist := RewriteFiles(out[dataset]);
      out := out[dataset := newlist];
      todo := todo - {dataset};
    }
  }

  /** The executor arguments main passes: four workers, and the custom-ntuple
      flag set exactly for "jmenano". */
  function ExecutorArgsFor(name: string): ExecutorArgs
  {
    ExecutorArgs(4, name == "jmenano")
  }

  /** main up to the executor calls: dispatch first (an unknown name stops
      everything), then the rewrite and the executor arguments. */
  method Plan(name: string, fileset: map<string, seq<string>>) returns (r: Result<RunPlan>)
    ensures r.Err? <==> name != "hlt" && name != "jmenano"
    ensures r.Err? ==> r.failure == UnknownProcessor(name)
    ensures r.Ok? ==> (r.value.executor.jmenano <==> r.value.dispatched.kind == JmeNanoKind)
    ensures r.Ok? ==> r.value.dispatched == (if name == "hlt" then Dispatched(HltKind, "Events")
                                             else Dispatched(JmeNanoKind, "JMETriggerNTuple/Events"))
    ensures r.Ok? ==> r.value.executor == ExecutorArgs(4, name == "jmenano")
    ensures r.Ok? ==> r.value.fileset.Keys == fileset.Keys &&
                      forall d :: d in fileset ==> r.value.fileset[d] == RewriteList(fileset[d])
  {
    var dispatched := Dispatch(name);
    if dispatched.Err? {
      return Err(dispatched.failure);
    }
    var rewritten := RewriteFileset(fileset);
    r := Ok(RunPlan(dispatched.value, ExecutorArgsFor(name), rewritten));
  }

  /** The saved accumulator's file name. */
  function OutputName(processor: string, dataset: string): string
  {
    processor + "_" + dataset + ".coffea"
  }

  /** The cutflow's file name. */
  function CutflowName(processor: string, dataset: string): string
  {
    processor + "_cutflow_" + dataset + ".txt"
  }

  /** For one processor, different datasets write different files, and an
      output file is never a cutflow file. */
  lemma {:induction false} OutputNamesDistinct(processor: string, d1: string, d2: string)
    ensures OutputName(processor, d1) == OutputName(processor, d2) ==> d1 == d2
    ensures CutflowName(processor, d1) == CutflowName(processor, d2) ==> d1 == d2
    ensures OutputName(processor, d1) != CutflowName(processor, d2)
  {
    var o1, o2 := OutputName(processor, d1), OutputName(processor, d2);
    if o1 == o2 {
      assert |d1| == |d2|;
      assert d1 == o1[|processor| + 1..|o1| - 7];
      assert d2 == o2[|processor| + 1..|o2| - 7];
    }
    var c1, c2 := CutflowName(processor, d1), CutflowName(processor, d2);
    if c1 == c2 {
      assert |d1| == |d2|;
      assert d1 == c1[|processor| + 9..|c1| - 4];
      assert d2 == c2[|processor| + 9..|c2| - 4];
    }
    assert o1[|o1| - 1] == 'a';
    assert c2[|c2| - 1] == 't';
  }
}
