/** Values shared by several pages of the dashboard. */
module Common {

  datatype Option<+T> = None | Some(value: T)

  /** The single privileged address. Login.py, 6_Admin_Panel.py and
      9_Community_Hub.py each hard-code it; it is declared once here. */
  const AdminEmail: string := "prolegendq7@gmail.com"
}
