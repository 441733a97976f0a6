/** Parallel workers that finish in any order, and their answers put back in order. */
module Workers {
  import opened Options

  // Every job finishes.
  ghost predicate Completion(order: seq<nat>, n: nat) {
    && (forall k {:trigger order[k]} :: 0 <= k < |order| ==> order[k] < n)
    && (forall j {:trigger j in order} :: 0 <= j < n ==> j in order)
  }

  // One chunk after the other; None when one of them fails.
  function InOrder<I, O>(job: I -> Option<O>, inputs: seq<I>): Option<seq<O>> {
    if inputs == [] then Some([])
    else
      var init, last := InOrder(job, inputs[..|inputs| - 1]), job(inputs[|inputs| - 1]);
      if init.Some? && last.Some? then Some(init.value + [last.value]) else None
  }

  lemma {:induction false} InOrderAt<I, O>(job: I -> Option<O>, inputs: seq<I>)
    ensures InOrder(job, inputs).Some? <==> forall j {:trigger inputs[j]} :: 0 <= j < |inputs| ==> job(inputs[j]).Some?
    ensures InOrder(job, inputs).Some? ==> |InOrder(job, inputs).value| == |inputs|
    ensures InOrder(job, inputs).Some? ==>
              forall j {:trigger inputs[j]} :: 0 <= j < |inputs| ==>
                  job(inputs[j]) == Some(InOrder(job, inputs).value[j])
  {
    if inputs != [] {
      var init := inputs[..|inputs| - 1];
      InOrderAt(job, init);
      assert inputs == init + [inputs[|inputs| - 1]];
    }
  }

  // The parts answered by parallel workers, collected as they complete.
  method CompleteChunks<I, O>(job: I -> Option<O>, inputs: seq<I>, order: seq<nat>) returns (r: Option<seq<O>>)
    requires Completion(order, |inputs|)
    ensures r == InOrder(job, inputs)
  {
    InOrderAt(job, inputs);
    var outputs: map<nat, O> := map[];
    var i := 0;
    while i < |order|
      invariant 0 <= i <= |order|
      invariant forall j {:trigger j in outputs} :: j in outputs <==> j in order[..i]
      invariant forall j {:trigger j in outputs} :: j in outputs ==> j < |inputs| && job(inputs[j]) == Some(outputs[j])
    {
      var index := order[i];
      var answer := job(inputs[index]);
      if answer == None { return None; }
      outputs := outputs[index := answer.value];
      i := i + 1;
    }
    assert order[..i] == order;
    forall j | 0 <= j < |inputs|
      ensures j in outputs && job(inputs[j]).Some?
    {
      assert j in order;
    }
    var all := seq(|inputs|, j requires 0 <= j < |inputs| && j in outputs => outputs[j]);
    forall j | 0 <= j < |inputs|
      ensures all[j] == InOrder(job, inputs).value[j]
    {
      assert job(inputs[j]) == Some(outputs[j]);
    }
    assert all == InOrder(job, inputs).value;
    r := Some(all);
  }

  // Files authored one after the other; a file whose author fails is left out.
  function Authored<C, O>(author: (string, C) -> Option<O>, files: seq<(string, C)>): seq<(string, C, O)> {
    if files == [] then []
    else
      var (path, content) := files[|files| - 1];
      var rest := Authored(author, files[..|files| - 1]);
      match author(path, content)
      case None => rest
      case Some(o) => rest + [(path, content, o)]
  }

  // Files with the same path have the same content, as they are read from one branch.
  ghost predicate OneContent<C>(files: seq<(string, C)>) {
    forall j, k {:trigger files[j], files[k]} :: 0 <= j < |files| && 0 <= k < |files| && files[j].0 == files[k].0 ==>
        files[j] == files[k]
  }

  // The parallel authors give the files of the sequential one, in the same order.
  method AuthorFixes<C, O>(author: (string, C) -> Option<O>, files: seq<(string, C)>,
        order: seq<nat>) returns (r: seq<(string, C, O)>)
    requires Completion(order, |files|) && OneContent(files)
    ensures r == Authored(author, files)
  {
    var authored: map<string, O> := map[];
    var i := 0;
    while i < |order|
      invariant 0 <= i <= |order|
      invariant forall j {:trigger files[j]} :: 0 <= j < |files| && files[j].0 in authored ==>
                  author(files[j].0, files[j].1) == Some(authored[files[j].0])
      invariant forall k {:trigger order[k]} :: 0 <= k < i && author(files[order[k]].0, files[order[k]].1).Some? ==>
                  files[order[k]].0 in authored
    {
      var (path, content) := files[order[i]];
      var answer := author(path, content);
      if answer.Some? { authored := authored[path := answer.value]; }
      i := i + 1;
    }
    r := [];
    i := 0;
    while i < |files|
      invariant 0 <= i <= |files| && r == Authored(author, files[..i])
    {
      var (path, content) := files[i];
      assert i in order;
      ghost var k :| 0 <= k < |order| && order[k] == i;
      assert files[..i + 1][..i] == files[..i];
      if path in authored { r := r + [(path, content, authored[path])]; }
      i := i + 1;
    }
    assert files[..i] == files;
  }
}
