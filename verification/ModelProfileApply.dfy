/**
 command_apply over documents with a meaning: what the byte-level receipts of ModelProfileReceipts promise
 together with the rules of ModelProfiles.
 */
module ModelProfileApply {
  import opened Wrappers
  import opened ModelProfiles
  import opened ModelProfileConsistency
  import Receipts = ModelProfileReceipts

  /** The bytes parse to documents and decisions; the workspace mutates as mutate_sources does, and its
      validator accepts consistent documents only. */
  ghost predicate Interprets(
    w: Receipts.Workspace, parse: Receipts.Documents -> Documents, read: string -> Decision)
  {
    && (forall d, text :: w.mutate(d, text).Some? ==>
          Mutated(parse(d), parse(w.mutate(d, text).value), read(text)))
    && (forall d :: w.valid(d) ==> Consistent(parse(d)))
  }

  /** From consistent sources, an apply gets as far as its first write only for an acceptable decision;
      every other one is refused and leaves the sources as they were. What it leaves when it completes is
      consistent. */
  method ApplyDecision(
    w: Receipts.Workspace, parse: Receipts.Documents -> Documents, read: string -> Decision,
    request: Receipts.Request, text: string, head: string, handoff: bool)
    returns (answer: Receipts.Answer)
    requires w.bundle == None && w.receipt == None && Interprets(w, parse, read)
    requires Consistent(parse(w.documents)) && HandedOff(read(text))
    modifies w
    ensures answer.Refused? ==> w.documents == old(w.documents)
    ensures !answer.Refused? ==>
              var before, decision := parse(old(w.documents)), read(text);
              && (decision.profile in before.profiles || Targets(decision.intent))
              && Acceptable(before, decision)
    ensures answer.Applied? ==> Consistent(parse(w.documents))
  {
    ghost var before := w.documents;
    answer := w.Apply(request, text, head, handoff);
    if !answer.Refused? {
      ghost var after := w.mutate(before, text).value;
      assert Mutated(parse(before), parse(after), read(text)) && Consistent(parse(after));
      MutationIsConsistent(parse(before), parse(after), read(text));
    }
  }
}
