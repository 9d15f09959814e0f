/** Values that cross the boundary between the activity and the Android platform. */
module Platform {

  /** A Java reference that may be null: None stands for null. */
  datatype Option<T> = None | Some(value: T)

  /** Toast.LENGTH_SHORT and Toast.LENGTH_LONG. */
  datatype Duration = Short | Long

  /** A user-visible notice shown with Toast.makeText(...).show(). */
  datatype Toast = Toast(text: string, duration: Duration)
}
