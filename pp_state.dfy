/** The preprocessor's conditional-compilation state: a stack of per-file
    frames, the most recently entered file on top. Frames are objects whose
    flags the setters change in place; the stack itself is a sequence of
    references in deque order (index 0 is the top). */
module Preprocessor {
  import opened PPStateSpec

  /** The state of one open file. */
  class StateItem<F> {
    var skipToken: bool
    var condition: bool
    var nestingDepth: Int32
    const fileUnderAnalysis: F

    constructor (fileUnderAnalysis: F)
      ensures View() == NewFrame(fileUnderAnalysis)
    {
      this.skipToken := false;
      this.condition := false;
      this.nestingDepth := 0;
      this.fileUnderAnalysis := fileUnderAnalysis;
    }

    ghost function View(): Frame<F>
      reads this
    {
      Frame(fileUnderAnalysis, skipToken, condition, nestingDepth)
    }

    function GetFile(): F
    {
      fileUnderAnalysis
    }
  }

  /** The frames of `items`, read from the heap. */
  ghost function Views<F>(items: seq<StateItem<F>>): (r: Stack<F>)
    reads items
    ensures |r| == |items|
    ensures forall i :: 0 <= i < |items| ==> r[i] == items[i].View()
  {
    if items == [] then [] else [items[0].View()] + Views(items[1..])
  }

  class PPState<F> {
    var stack: seq<StateItem<F>>

    /** No two positions of the stack share a frame object, so changing the
        top frame leaves every other frame as it was. */
    ghost predicate Valid()
      reads this
    {
      forall i, j :: 0 <= i < j < |stack| ==> stack[i] != stack[j]
    }

    /** The abstract state: the frames, top first. */
    ghost function Frames(): Stack<F>
      reads this, stack
    {
      Views(stack)
    }

    /** The empty stack, before the root file is pushed. In the source this
        constructor is private and only `Build` calls it, so outside the class
        an empty stack arises only by popping the root frame. */
    constructor ()
      ensures Valid() && Frames() == []
    {
      stack := [];
    }

    /** A new session for the root file `contextFile`. */
    static method Build(contextFile: F) returns (state: PPState<F>)
      ensures fresh(state) && state.Valid()
      ensures state.Frames() == PPStateSpec.Build(contextFile)
      ensures fresh(state.stack[0])
    {
      state := new PPState();
      state.PushFileState(contextFile);
    }

    method GetContextFile() returns (file: F)
      requires Valid() && stack != []
      ensures file == ContextFile(Frames())
    {
      file := stack[|stack| - 1].GetFile();
    }

    method PushFileState(currentFile: F)
      requires Valid()
      modifies this
      ensures Valid()
      ensures Frames() == Push(old(Frames()), currentFile)
      ensures fresh(stack[0]) && stack[1..] == old(stack)
    {
      var item := new StateItem(currentFile);
      stack := [item] + stack;
      assert stack[1..] == old(stack);
    }

    method PopFileState()
      requires Valid() && stack != []
      modifies this
      ensures Valid()
      ensures Frames() == Pop(old(Frames()))
      ensures stack == old(stack[1..])
    {
      stack := stack[1..];
    }

    method SetSkipTokens(state: bool)
      requires Valid() && stack != []
      modifies stack[0]
      ensures Valid()
      ensures Frames() == SetSkip(old(Frames()), state)
    {
      stack[0].skipToken := state;
    }

    method SkipTokens() returns (skipping: bool)
      requires Valid() && stack != []
      ensures skipping == Skipping(Frames())
    {
      skipping := stack[0].skipToken;
    }

    method SetConditionValue(state: bool)
      requires Valid() && stack != []
      modifies stack[0]
      ensures Valid()
      ensures Frames() == SetCondition(old(Frames()), state)
    {
      stack[0].condition := state;
    }

    method IfLastConditionWasFalse() returns (wasFalse: bool)
      requires Valid() && stack != []
      ensures wasFalse == LastConditionFalse(Frames())
    {
      wasFalse := !stack[0].condition;
    }

    method ChangeNestingDepth(dir: Int32)
      requires Valid() && stack != []
      modifies stack[0]
      ensures Valid()
      ensures Frames() == ChangeDepth(old(Frames()), dir)
    {
      stack[0].nestingDepth := AddInt32(stack[0].nestingDepth, dir);
    }

    method IsInsideNestedBlock() returns (inside: bool)
      requires Valid() && stack != []
      ensures inside == InsideNestedBlock(Frames())
    {
      inside := stack[0].nestingDepth > 0;
    }

    method GetFileUnderAnalysis() returns (file: F)
      requires Valid() && stack != []
      ensures file == FileUnderAnalysis(Frames())
    {
      file := stack[0].GetFile();
    }
  }
}
