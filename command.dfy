/** The argument list `run_bac2feature` hands to the process launcher. */
module Command {
  import opened Paths

  datatype Option<T> = None | Some(value: T)

  /** Name of the prediction tool's executable. */
  const Tool: string := "bac_to_feature.py"

  /** The three prediction modes the benchmark knows how to run. */
  predicate Recognised(mode: string) {
    mode == "homology" || mode == "phylogeny" || mode == "taxonomy"
  }

  // The output file of each recognised mode, written out as the command spells it.

  lemma HomologyOutputSpelledOut()
    ensures OutputPath("homology") == "../../data/time_calculation/b2f_output_homology.tsv"
  {
  }

  lemma PhylogenyOutputSpelledOut()
    ensures OutputPath("phylogeny") == "../../data/time_calculation/b2f_output_phylogeny.tsv"
  {
  }

  lemma TaxonomyOutputSpelledOut()
    ensures OutputPath("taxonomy") == "../../data/time_calculation/b2f_output_taxonomy.tsv"
  {
  }

  /** The command for predicting from `testSeqPath` in mode `mode`. A mode
      outside the three leaves the list empty: there is no error and no
      partial list. */
  function Bac2FeatureCommand(testSeqPath: string, mode: string): (cmd: seq<string>)
    ensures Recognised(mode) ==>
      cmd == [Tool, "-s", testSeqPath, "-o", OutputPath(mode), "-m", mode, "--threads", "1"]
    ensures !Recognised(mode) ==> cmd == []
  {
    if mode == "homology" then
      HomologyOutputSpelledOut();
      ["bac_to_feature.py",
       "-s", testSeqPath,
       "-o", "../../data/time_calculation/b2f_output_homology.tsv",
       "-m", "homology",
       "--threads", "1"]
    else if mode == "phylogeny" then
      PhylogenyOutputSpelledOut();
      ["bac_to_feature.py",
       "-s", testSeqPath,
       "-o", "../../data/time_calculation/b2f_output_phylogeny.tsv",
       "-m", "phylogeny",
       "--threads", "1"]
    else if mode == "taxonomy" then
      TaxonomyOutputSpelledOut();
      ["bac_to_feature.py",
       "-s", testSeqPath,
       "-o", "../../data/time_calculation/b2f_output_taxonomy.tsv",
       "-m", "taxonomy",
       "--threads", "1"]
    else
      []
  }

  /** Reads an argument list back: the input path and mode of a well-formed
      command, or None for anything else. */
  function CommandArgs(cmd: seq<string>): (r: Option<(string, string)>)
  {
    if |cmd| == 9 && cmd[0] == Tool && cmd[1] == "-s" && cmd[3] == "-o"
       && cmd[5] == "-m" && Recognised(cmd[6]) && cmd[4] == OutputPath(cmd[6])
       && cmd[7] == "--threads" && cmd[8] == "1"
    then Some((cmd[2], cmd[6]))
    else None
  }

  /** A command is built exactly when its mode is recognised, and it can be
      read back into the input path and mode it was built from. */
  lemma CommandRoundTrip(testSeqPath: string, mode: string)
    ensures Recognised(mode) <==> Bac2FeatureCommand(testSeqPath, mode) != []
    ensures Recognised(mode) ==>
      CommandArgs(Bac2FeatureCommand(testSeqPath, mode)) == Some((testSeqPath, mode))
    ensures !Recognised(mode) ==> CommandArgs(Bac2FeatureCommand(testSeqPath, mode)) == None
  {
  }

  /** Every well-formed command is the one built from what it reads back to. */
  lemma CommandArgsSound(cmd: seq<string>, testSeqPath: string, mode: string)
    requires CommandArgs(cmd) == Some((testSeqPath, mode))
    ensures Recognised(mode) && Bac2FeatureCommand(testSeqPath, mode) == cmd
  {
  }

  /** Distinct input paths or distinct modes give distinct commands. */
  lemma CommandInjective(p1: string, m1: string, p2: string, m2: string)
    requires Recognised(m1)
    requires Bac2FeatureCommand(p1, m1) == Bac2FeatureCommand(p2, m2)
    ensures p1 == p2 && m1 == m2
  {
  }

  /** The three recognised modes write to three different output files. */
  lemma OutputsDistinct(p1: string, m1: string, p2: string, m2: string)
    requires Recognised(m1) && Recognised(m2) && m1 != m2
    ensures Bac2FeatureCommand(p1, m1)[4] != Bac2FeatureCommand(p2, m2)[4]
  {
    if OutputPath(m1) == OutputPath(m2) {
      OutputPathInjective(m1, m2);
    }
  }

  /** `run_bac2feature`: builds the command and hands it to the process
      launcher. What the launched tool does is not modelled; the launcher
      raises on an empty argument list, which is the one outcome the
      benchmark depends on. */
  method RunBac2Feature(testSeqPath: string, mode: string) returns (raised: bool)
    ensures raised <==> !Recognised(mode)
  {
    var cmd := Bac2FeatureCommand(testSeqPath, mode);
    raised := cmd == [];
  }
}
