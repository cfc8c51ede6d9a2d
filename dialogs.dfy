/** The platform-independent description of a message dialog, as the
    platform dialog back ends receive it. */
module Dialogs {
  import opened Wrappers

  datatype DialogKind = Info | Warning | Error

  /** `DialogOptions`: the buttons are listed in display order; the index
      a back end returns is an index into them. */
  datatype DialogOptions = DialogOptions(
    kind: DialogKind,
    title: string,
    message: string,
    detail: Option<string>,
    buttons: seq<string>)
}
