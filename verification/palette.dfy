/** The hex colours the 3D scenes share. */
module Palette {
  const Red: string := "#FF3A5E"
  const Blue: string := "#00A3FF"
  const Amber: string := "#FFB300"
  const Green: string := "#00E676"
  const White: string := "#FFFFFF"

  /** The four status colours are different strings. */
  lemma StatusColorsDistinct()
    ensures Green != Blue && Green != Amber && Green != Red
    ensures Blue != Amber && Blue != Red && Amber != Red
  {
    assert Green[3] != Blue[3] && Green[1] != Amber[1] && Green[1] != Red[1];
    assert Blue[1] != Amber[1] && Blue[1] != Red[1] && Amber[3] != Red[3];
  }
}
