/**
 * What the bot says and does, as abstract actions. The messaging transport, the media
 * resolver and the file system act on these; the model only decides which are emitted
 * and in what order.
 */
module Conversation {
  import opened Outcomes

  /** An inline keyboard button that sends its callback data back when pressed. */
  datatype Button = CallbackButton(caption: string, data: string)

  /** Rows of buttons, top to bottom. */
  type Keyboard = seq<seq<Button>>

  datatype Action =
    | Answer                                                   // acknowledge a button press
    | Reply(text: string, markup: Option<Keyboard>)            // send a text message
    | ReplyPhoto(image: string, caption: string, keyboard: Keyboard) // send a photo fetched from `image`
    | EditCaption(caption: string)                             // edit the pressed message's caption
    | EditText(text: string)                                   // edit the pressed (status) message's text
    | DeleteMessage                                            // delete the status message
    | Resolve(target: string)                                  // ask the resolver for metadata only
    | Fetch(url: string, bitrate: string)                      // ask the resolver to download and transcode to mp3
    | GetImage(url: string)                                    // HTTP GET of an image
    | WriteTags(file: string, title: string, artist: string, cover: Option<string>) // tags saved into the mp3
    | SendAudio(file: string, title: string, performer: string, caption: string)   // the mp3 delivered
    | RemoveFile(name: string)                                 // a file deleted from the downloads directory
    | HandlerCrash(reason: string)                             // an exception escaped the handler

  const MusicNote := "\U{1F3B5}"

  /** The help text, shared by the /help command and the Help button. */
  const HelpText: string :=
    MusicNote + " *Zero Music Bot Help* " + MusicNote + "\n\n"
    + "*Commands:*\n"
    + "/start - Start the bot\n"
    + "/help - Show this help message\n"
    + "/search [query] - Search for music\n\n"
    + "*How to use:*\n"
    + "1\U{FE0F}\U{20E3} Send a YouTube link to download directly\n"
    + "2\U{FE0F}\U{20E3} Or type /search followed by song name\n"
    + "3\U{FE0F}\U{20E3} Select quality options when prompted\n\n"
    + "Created by @zerocreations"
}
