/** The first pass of the assembler as the loop that it is: pc and the label table are updated
    while the instructions that are not labels are collected. */
module AssemblerPasses {
  import opened Options
  import opened Salt
  import opened Assembler

  method CollectFilterLabelDefs(p: seq<Instr>) returns (lmap: map<Name, int>, code: seq<Instr>)
    ensures lmap == Labels(p, 0) && code == StripLabels(p)
  {
    var pc := 0;
    lmap, code := map[], [];
    for i := 0 to |p|
      invariant lmap == Labels(p[..i], 0) && code == StripLabels(p[..i]) && pc == Size(p[..i])
    {
      assert p[..i + 1] == p[..i] + [p[i]];
      LabelsConcat(p[..i], [p[i]], 0);
      SizeConcat(p[..i], [p[i]]);
      assert [p[i]][1..] == [];
      match p[i]
      case Label(l) => lmap := lmap[l := pc];
      case _ =>
        pc := pc + 1;
        code := code + [p[i]];
    }
    assert p[..|p|] == p;
  }

  method AssembleProgram(p: seq<Instr>) returns (r: Option<seq<Instr>>)
    ensures r == Assemble(p)
  {
    var lmap, code := CollectFilterLabelDefs(p);
    lmap := lmap[User(RESERVED) := -1];
    r := ReplaceLabels(lmap, code);
  }
}
