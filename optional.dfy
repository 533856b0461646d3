/** The result of a load that can fail (`cv2.imread` returning None). */
module Optional {
  datatype Option<T> = None | Some(value: T)
}
