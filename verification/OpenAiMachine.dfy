/** The event handlers of `OpenAiSseDecoder`, updating its fields in place. */
module OpenAiMachine {
  import opened Wrappers
  import opened Json
  import opened Utf8
  import opened Response
  import opened Assembler
  import opened AssemblerMachine
  import opened Sse
  import opened Access
  import opened OpenAi

  class OpenAiEvents {
    const deepSeek: bool
    const assembler: StreamAssembler
    var data: seq<byte>
    var done: bool
    var usage: Option<Usage>

    constructor (config: Config, drawn: nat)
      ensures fresh(assembler) && Configured() == config
      ensures assembler.Valid() && View() == OpenAi.Start(drawn)
    {
      deepSeek := config.deepSeek;
      assembler := new StreamAssembler(config.ss, drawn);
      data, done, usage := [], false, None;
    }

    function Configured(): Config {
      Config(assembler.session, deepSeek)
    }

    ghost function View(): OpenAiState
      reads this, assembler
      requires assembler.Valid()
    {
      OpenAiState(assembler.View(), data, done, usage)
    }

    ghost predicate Did(step: Step<OpenAiState>, r: Result<seq<ChatChunk>, TargetErrorKind>)
      reads this, assembler
    {
      match r
      case Err(kind) => step == Fail(kind)
      case Ok(out) => assembler.Valid() && step == Next(View(), out)
    }

    /** `consume_line`. */
    method ConsumeLine(raw: seq<byte>) returns (r: Result<seq<ChatChunk>, TargetErrorKind>)
      requires assembler.Valid()
      modifies this, assembler
      ensures Did(Line(Configured(), old(View()), raw), r)
    {
      var line := StripCr(raw);
      if line == [] {
        r := DispatchData();
        return;
      }
      if line[0] == COLON {
        return Ok([]);
      }
      var value := FieldValue(line, DATA_FIELD);
      if value.Some? {
        var appended := AppendData(data, value.value);
        if appended.None? {
          return Err(InvalidResponseError);
        }
        data := appended.value;
      }
      r := Ok([]);
    }

    /** `dispatch`. */
    method DispatchData() returns (r: Result<seq<ChatChunk>, TargetErrorKind>)
      requires assembler.Valid()
      modifies this, assembler
      ensures Did(Dispatch(Configured(), old(View())), r)
    {
      if data == [] {
        return Ok([]);
      }
      var payload := data;
      data := [];
      if done {
        return Err(InvalidResponseError);
      }
      if payload == DONE_PAYLOAD {
        r := FinishStream();
        return;
      }
      r := ReadEvent(payload);
    }

    method FinishStream() returns (r: Result<seq<ChatChunk>, TargetErrorKind>)
      requires assembler.Valid()
      modifies this, assembler
      ensures Did(DispatchDone(Configured(), old(View())), r)
    {
      if !assembler.started || !assembler.terminal {
        return Err(InvalidResponseError);
      }
      done := true;
      var taken := usage;
      usage := None;
      if taken.None? {
        return Ok([]);
      }
      var chunk := assembler.UsageChunk(taken.value);
      if chunk.Err? {
        return Err(TargetError(chunk.error));
      }
      r := Ok(ChunkList(chunk.value));
    }

    method ReadEvent(payload: seq<byte>) returns (r: Result<seq<ChatChunk>, TargetErrorKind>)
      requires assembler.Valid()
      modifies this, assembler
      ensures Did(DispatchEvent(Configured(), old(View()), payload), r)
    {
      var event := DecodePayload(payload);
      if event.None? {
        return Err(InvalidResponseError);
      }
      var choices := RequiredArray(event.value, "choices");
      if choices.None? || |choices.value| > 1 {
        return Err(InvalidResponseError);
      }
      if choices.value == [] {
        var found := Field(event.value, "usage");
        if found.None? {
          return Err(InvalidResponseError);
        }
        usage := ParseUsage(found.value);
        return Ok([]);
      }
      var choice := ParseStreamChoice(choices.value[0], deepSeek);
      if choice.None? {
        return Err(InvalidResponseError);
      }
      var chunk := assembler.PushDelta(choice.value.index, choice.value.delta, choice.value.terminal);
      if chunk.Err? {
        return Err(TargetError(chunk.error));
      }
      r := Ok(ChunkList(chunk.value));
    }
  }
}
