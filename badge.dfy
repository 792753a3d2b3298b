/** The four visual variants of the interface's badge component. */
module Badge {
  datatype Variant = Default | Secondary | Outline | Destructive
}
