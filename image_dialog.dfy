/**
 * The image dialog's two tabs hand an image URL back to the toolbar's image
 * button and ask for the dialog to close, through the same two callbacks.
 */
module ImageDialog {
  /** A callback a tab makes to the dialog's owner, in the order made. */
  datatype DialogCall = InsertCall(url: string) | CloseCall
}
