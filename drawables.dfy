/** The drawable resource ids the app names directly (`R.drawable.my_img1` to
    `my_img4`). Their numeric values are assigned by the Android build; the
    model only needs them to be distinct and non-zero, since a resource id of
    0 means "no resource" to `PhotoAdapter`. */
module Drawables {
  const MyImg1: int := 1
  const MyImg2: int := 2
  const MyImg3: int := 3
  const MyImg4: int := 4

  /** The four default photos, in the order the app adds them. */
  const Defaults: seq<int> := [MyImg1, MyImg2, MyImg3, MyImg4]
}
