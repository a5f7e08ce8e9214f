/**
 * The fluent text builder used to compose log and update messages. Every
 * operation appends to the accumulated text; the tag helpers wrap their
 * content in Telegram's HTML markup. Chaining (`return this`) becomes a
 * sequence of calls on the same object.
 */
module MessageBuilder {
  import opened Wrappers

  /** `count` newline characters: `'\n'.repeat(count)`. */
  function NewLines(count: nat): (r: string)
    ensures |r| == count
    ensures forall i :: 0 <= i < |r| ==> r[i] == '\n'
  {
    if count == 0 then "" else "\n" + NewLines(count - 1)
  }

  class TelegramLoggerMessageBuilder {
    var text: string

    /** A missing or empty argument leaves the text empty. */
    constructor (initial: Option<string>)
      ensures text == if initial.Some? then initial.value else ""
    {
      text := "";
      if initial.Some? && initial.value != "" {
        text := initial.value;
      }
    }

    method Add(t: string)
      modifies this
      ensures text == old(text) + t
    {
      text := text + t;
    }

    method Space()
      modifies this
      ensures text == old(text) + " "
    {
      Add(" ");
    }

    method Bold(content: string)
      modifies this
      ensures text == old(text) + "<b>" + content + "</b>"
    {
      Add("<b>" + content + "</b>");
    }

    method Italic(content: string)
      modifies this
      ensures text == old(text) + "<i>" + content + "</i>"
    {
      Add("<i>" + content + "</i>");
    }

    method Code(content: string)
      modifies this
      ensures text == old(text) + "<code>" + content + "</code>"
    {
      Add("<code>" + content + "</code>");
    }

    method Underline(content: string)
      modifies this
      ensures text == old(text) + "<u>" + content + "</u>"
    {
      Add("<u>" + content + "</u>");
    }

    /**
     * Appends `count` newlines (the source's default is one). A negative
     * count makes `String.prototype.repeat` throw a `RangeError` before
     * anything is appended: `ok` is false and the text is unchanged.
     */
    method Enter(count: int) returns (ok: bool)
      modifies this
      ensures ok <==> count >= 0
      ensures ok ==> text == old(text) + NewLines(count) && |text| == |old(text)| + count
      ensures !ok ==> text == old(text)
    {
      if count < 0 {
        ok := false;
      } else {
        Add(NewLines(count));
        ok := true;
      }
    }

    /**
     * Runs the handler only when `condition` holds. The handler is
     * modelled as what it appends, computed from the text so far.
     */
    method When(condition: bool, handler: string -> string)
      modifies this
      ensures condition ==> text == old(text) + handler(old(text))
      ensures !condition ==> text == old(text)
    {
      if condition {
        Add(handler(text));
      }
    }

    function Get(): string
      reads this
    {
      text
    }
  }
}
