/** The adapter's fixed identity and capability flags, declared once and never read from a live connection. */
module Capabilities {

  datatype Capabilities = Capabilities(
    name: string,
    badgeLabel: string,
    installExtra: string,
    installPackage: string,
    driverImportNames: seq<string>,
    supportsMultipleDatabases: bool,
    supportsStoredProcedures: bool,
    defaultSchema: string)

  const Snowflake: Capabilities := Capabilities(
    name := "Snowflake",
    badgeLabel := "SNOW",
    installExtra := "snowflake",
    installPackage := "snowflake-connector-python",
    driverImportNames := ["snowflake.connector"],
    supportsMultipleDatabases := true,
    supportsStoredProcedures := true,
    defaultSchema := "PUBLIC")
}
