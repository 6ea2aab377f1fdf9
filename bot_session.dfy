/**
 * BOT_MODE, the bot's memory of the upload folder: a path and a display
 * name, written by a confirmed folder choice and read by the upload and
 * `/current_folder` handlers. An empty string stands for Python's falsy
 * `None` or `""`.
 */
module BotSession {

  class Session {
    var currentFolder: string
    var currentFolderName: string

    /** The session as the bot is started with it. */
    constructor (folder: string, name: string)
      ensures currentFolder == folder && currentFolderName == name
    {
      currentFolder, currentFolderName := folder, name;
    }

    /** `BOT_MODE.set_folder(path, name)`. */
    method SetFolder(path: string, name: string)
      modifies this
      ensures currentFolder == path && currentFolderName == name
    {
      currentFolder, currentFolderName := path, name;
    }
  }

  datatype FolderReport = NoFolderSet | CurrentFolder(path: string, name: string)

  /**
   * `/current_folder`: reports the folder unless its NAME is unset. (The
   * upload handler tests the PATH instead; see UploadWithoutName in Upload.)
   */
  function CurrentFolderReport(folder: string, name: string): (r: FolderReport)
    ensures r.NoFolderSet? <==> name == ""
    ensures r.CurrentFolder? ==> r.path == folder && r.name == name
  {
    if name == "" then NoFolderSet else CurrentFolder(folder, name)
  }
}
