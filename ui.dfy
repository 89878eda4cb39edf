/** The visual variants of the badge component the admin tables use. */
module Ui {
  datatype BadgeVariant = Default | Secondary | Destructive | Outline
}
