/** PHP's output-control layer: a stack of open buffers and the text already
    sent to the client. Output goes to the innermost open buffer, or straight
    out when no buffer is open. */
module OutputBuffering {
  import opened Values

  class OutputBuffers {
    /** Open buffers, innermost last (`ob_get_level()` is its length). */
    var stack: seq<string>
    /** Output that reached the client because no buffer was open. */
    var sent: string

    constructor ()
      ensures stack == [] && sent == ""
    {
      stack := [];
      sent := "";
    }

    /** `ob_get_level()`. */
    method Level() returns (n: nat)
      ensures n == |stack|
    {
      n := |stack|;
    }

    /** `ob_start()`: opens a new, empty innermost buffer. */
    method Start()
      modifies this
      ensures stack == old(stack) + [""]
      ensures sent == old(sent)
    {
      stack := stack + [""];
    }

    /** `echo s`: appends to the innermost buffer, or sends when none is open. */
    method Write(s: string)
      modifies this
      ensures |stack| == |old(stack)|
      ensures old(stack) == [] ==> sent == old(sent) + s
      ensures old(stack) != [] ==>
                sent == old(sent) &&
                stack == old(stack)[..|old(stack)| - 1] + [old(stack)[|old(stack)| - 1] + s]
    {
      if stack == [] {
        sent := sent + s;
      } else {
        stack := stack[..|stack| - 1] + [stack[|stack| - 1] + s];
      }
    }

    /** `ob_get_clean()`: closes the innermost buffer and returns what it held;
        `false` (here `None`) when no buffer is open. */
    method GetClean() returns (contents: Option<string>)
      modifies this
      ensures sent == old(sent)
      ensures old(stack) == [] ==> contents.None? && stack == []
      ensures old(stack) != [] ==>
                contents == Some(old(stack)[|old(stack)| - 1]) &&
                stack == old(stack)[..|old(stack)| - 1]
    {
      if stack == [] {
        contents := None;
      } else {
        contents := Some(stack[|stack| - 1]);
        stack := stack[..|stack| - 1];
      }
    }

    /** `ob_end_clean()`: discards the innermost buffer; `false` when none is open. */
    method EndClean() returns (closed: bool)
      modifies this
      ensures sent == old(sent)
      ensures closed == (old(stack) != [])
      ensures stack == if closed then old(stack)[..|old(stack)| - 1] else old(stack)
    {
      closed := stack != [];
      if closed {
        stack := stack[..|stack| - 1];
      }
    }
  }
}
