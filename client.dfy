/** The client tab: the client's details, the delivery formats asked for, and the editor's open state. */
module ClientManager {
  import opened Wrappers
  import opened Lists
  import opened Text
  import opened Model

  /** The editor: whether it is open, and the client data being edited. */
  datatype ClientEditor = ClientEditor(isEditing: bool, data: ClientInfo)

  /** The blank client the editor starts from when the project has none. */
  const EMPTY_CLIENT: ClientInfo := ClientInfo("", "", "", "", [], None)

  /** `commonFormats`: the one-click delivery formats. */
  const COMMON_FORMATS: seq<string> := ["JPG高清", "RAW原片", "精修图", "视频剪辑", "社交媒体尺寸", "打印尺寸"]

  /** The editor starts open, on a blank client, exactly when the project has no client yet. */
  function InitialEditor(p: Project): (r: ClientEditor)
    ensures r.isEditing <==> p.client.None?
    ensures p.client.None? ==> r.data == EMPTY_CLIENT
    ensures p.client.Some? ==> r.data == p.client.value
  {
    ClientEditor(p.client.None?, p.client.GetOr(EMPTY_CLIENT))
  }

  /**
   * `handleSave`: nothing happens unless name and contact are filled;
   * otherwise the edited client becomes the project's and the editor closes.
   */
  function Save(p: Project, editor: ClientEditor): (r: (Project, ClientEditor))
    ensures editor.data.name == "" || editor.data.contact == "" ==> r == (p, editor)
    ensures editor.data.name != "" && editor.data.contact != "" ==>
      && r.0 == p.(client := Some(editor.data))
      && r.1 == editor.(isEditing := false)
  {
    if editor.data.name == "" || editor.data.contact == "" then (p, editor)
    else (p.(client := Some(editor.data)), editor.(isEditing := false))
  }

  /** After a successful save, opening the tab again shows the saved client with the editor closed. */
  lemma SaveThenReopen(p: Project, editor: ClientEditor)
    requires editor.data.name != "" && editor.data.contact != ""
    ensures InitialEditor(Save(p, editor).0) == Save(p, editor).1.(isEditing := false)
    ensures InitialEditor(Save(p, editor).0).data == editor.data
  {
  }

  /** A project whose client was never saved keeps its editor open on the blank client. */
  lemma BlankClientIsRefused(p: Project)
    requires p.client.None?
    ensures Save(p, InitialEditor(p)) == (p, InitialEditor(p))
  {
  }

  /**
   * `addDeliveryFormat`: a blank format or one already listed is ignored;
   * otherwise the format is appended as given. The list stays free of duplicates.
   */
  function AddDeliveryFormat(data: ClientInfo, format: string): (r: ClientInfo)
    ensures r == data.(deliveryFormat := r.deliveryFormat)
    ensures IsBlank(format) || format in data.deliveryFormat ==> r == data
    ensures !IsBlank(format) && format !in data.deliveryFormat ==> r.deliveryFormat == data.deliveryFormat + [format]
    ensures NoDuplicates(data.deliveryFormat) ==> NoDuplicates(r.deliveryFormat)
  {
    if IsBlank(format) then data
    else data.(deliveryFormat := AppendIfAbsent(data.deliveryFormat, format))
  }

  /** `removeDeliveryFormat`: every occurrence of the format goes, the others stay in order. */
  function RemoveDeliveryFormat(data: ClientInfo, format: string): (r: ClientInfo)
    ensures r == data.(deliveryFormat := r.deliveryFormat)
    ensures IsSubsequence(r.deliveryFormat, data.deliveryFormat)
    ensures format !in r.deliveryFormat
    ensures forall f :: f in data.deliveryFormat && f != format ==> f in r.deliveryFormat
    ensures |r.deliveryFormat| == Count(data.deliveryFormat, OtherValue(format))
  {
    data.(deliveryFormat := RemoveValue(data.deliveryFormat, format))
  }

  /** Adding a format that was not listed and removing it again restores the client. */
  lemma AddThenRemoveFormat(data: ClientInfo, format: string)
    requires format !in data.deliveryFormat
    ensures RemoveDeliveryFormat(AddDeliveryFormat(data, format), format) == data
  {
    if IsBlank(format) {
      RemoveValueAbsent(data.deliveryFormat, format);
    } else {
      RemoveValueAppended(data.deliveryFormat, format);
    }
  }
}
