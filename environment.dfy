/**
 * The world outside the bot's core, as far as the core touches it: the file
 * system (path to body), the log, and the messages sent to Discord channels.
 */
module Environment {
  import opened Numbers
  import opened Json

  datatype Severity = Warning | Info | Debug

  datatype LogMessage = LogMessage(severity: Severity, source: string, text: string)

  /** A text channel of a guild. */
  datatype Destination = Destination(guildId: UInt64, channelId: UInt64)

  /** A message with an embed of the given title, sent to a channel. */
  datatype Outgoing = Outgoing(destination: Destination, embedTitle: string)

  class World {
    var files: map<string, Document>
    var log: seq<LogMessage>
    var sent: seq<Outgoing>

    constructor (files: map<string, Document>)
      ensures this.files == files && log == [] && sent == []
    {
      this.files := files;
      log := [];
      sent := [];
    }

    /** `File.WriteAllText`: creates or overwrites the file. */
    method WriteAllText(path: string, body: Document)
      modifies this
      ensures files == old(files)[path := body]
      ensures log == old(log) && sent == old(sent)
    {
      files := files[path := body];
    }

    /** `File.Delete`: removes the file; deleting a missing file does nothing. */
    method Delete(path: string)
      modifies this
      ensures files == old(files) - {path}
      ensures log == old(log) && sent == old(sent)
    {
      files := files - {path};
    }

    /** `LoggerService.TaskLog`. */
    method Log(message: LogMessage)
      modifies this
      ensures log == old(log) + [message]
      ensures files == old(files) && sent == old(sent)
    {
      log := log + [message];
    }

    /** `SendMessageAsync`: the message is handed to Discord; whether it arrives is not modelled. */
    method Send(message: Outgoing)
      modifies this
      ensures sent == old(sent) + [message]
      ensures files == old(files) && log == old(log)
    {
      sent := sent + [message];
    }
  }
}
