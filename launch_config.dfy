/** The scripts that write the `mcp_config.json` launching an MCP server (the PDF RAG
    server and the Tavily web-search server): the environment variables passed on,
    the interpreter of the project's virtual environment, and the configuration
    dict. The environment and `os.name` are parameters; a path is the list of its
    components, the project root being the script's directory. Writing the file is
    left out. */
module LaunchConfig {

  type Path = seq<string>

  /** `path.parent`: the path without its last component (the root is its own parent). */
  function Parent(p: Path): (r: Path)
    ensures p != [] ==> r + [p[|p| - 1]] == p
  {
    if p == [] then [] else p[..|p| - 1]
  }

  /* ---------- get_env_variables ---------- */

  /** The variables among `required` that are set to a non-empty value, with their
      values. */
  function Filtered(env: map<string, string>, required: seq<string>): (d: map<string, string>)
    ensures forall k :: k in d <==> k in required && k in env && env[k] != ""
    ensures forall k :: k in d ==> d[k] == env[k]
  {
    map k | k in required && k in env && env[k] != "" :: env[k]
  }

  /** The loop copying each required variable that is set to a non-empty value. */
  method FilterEnv(env: map<string, string>, required: seq<string>) returns (d: map<string, string>)
    ensures d == Filtered(env, required)
  {
    d := map[];
    for i := 0 to |required|
      invariant d == Filtered(env, required[..i])
    {
      var name := required[i];
      assert required[..i + 1] == required[..i] + [name];
      if name in env && env[name] != "" {
        d := d[name := env[name]];
      }
    }
    assert required[..|required|] == required;
  }

  const RagRequired: seq<string> := ["OPENAI_API_KEY"]
  const RagDefaults: map<string, string> := map["DEFAULT_TOP_K" := "5"]
  const WebRequired: seq<string> := ["TAVILY_API_KEY"]

  /** The variables of the RAG server: the OpenAI key when set, then the fixed
      `DEFAULT_TOP_K`. */
  method RagEnvVariables(env: map<string, string>) returns (d: map<string, string>)
    ensures d == Filtered(env, RagRequired) + RagDefaults
  {
    d := FilterEnv(env, RagRequired);
    d := d + RagDefaults;
  }

  /** The RAG server receives the OpenAI key exactly when it is set to a non-empty
      value, always `DEFAULT_TOP_K` = "5", and nothing else. */
  lemma RagEnvContents(env: map<string, string>)
    ensures var d := Filtered(env, RagRequired) + RagDefaults;
      && d.Keys <= {"OPENAI_API_KEY", "DEFAULT_TOP_K"}
      && ("OPENAI_API_KEY" in d <==> "OPENAI_API_KEY" in env && env["OPENAI_API_KEY"] != "")
      && ("OPENAI_API_KEY" in d ==> d["OPENAI_API_KEY"] == env["OPENAI_API_KEY"])
      && "DEFAULT_TOP_K" in d && d["DEFAULT_TOP_K"] == "5"
  {
    var f := Filtered(env, RagRequired);
    assert forall k :: k in f ==> k == "OPENAI_API_KEY";
  }

  /** The variables of the web-search server: the Tavily key when set. */
  method WebEnvVariables(env: map<string, string>) returns (d: map<string, string>)
    ensures d == Filtered(env, WebRequired)
  {
    d := FilterEnv(env, WebRequired);
  }

  /** The web-search server receives the Tavily key exactly when it is set to a
      non-empty value, and nothing else. */
  lemma WebEnvContents(env: map<string, string>)
    ensures var d := Filtered(env, WebRequired);
      && d.Keys <= {"TAVILY_API_KEY"}
      && ("TAVILY_API_KEY" in d <==> "TAVILY_API_KEY" in env && env["TAVILY_API_KEY"] != "")
      && ("TAVILY_API_KEY" in d ==> d["TAVILY_API_KEY"] == env["TAVILY_API_KEY"])
  {
    var d := Filtered(env, WebRequired);
    assert forall k :: k in d ==> k == "TAVILY_API_KEY";
  }

  /* ---------- create_mcp_json ---------- */

  /** One server's launch entry. */
  datatype ServerEntry = ServerEntry(command: Path, args: seq<Path>, env: map<string, string>)

  /** The configuration dict: the servers under "mcpServers". */
  datatype McpConfig = McpConfig(mcpServers: map<string, ServerEntry>)

  /** The virtual environment's interpreter, next to the project root. */
  function PythonPath(root: Path, osName: string): Path {
    if osName == "nt" then Parent(root) + [".venv", "Scripts", "python.exe"]
    else Parent(root) + [".venv", "bin", "python"]
  }

  /** The interpreter lies in the `.venv` directory of the root's parent, under
      `Scripts/python.exe` on Windows and `bin/python` elsewhere. */
  lemma PythonPathInVenv(root: Path, osName: string)
    ensures var p := PythonPath(root, osName);
      && |p| == |Parent(root)| + 3
      && p[..|Parent(root)|] == Parent(root) && p[|Parent(root)|] == ".venv"
      && (osName == "nt" <==> p[|Parent(root)| + 1..] == ["Scripts", "python.exe"])
      && (osName != "nt" <==> p[|Parent(root)| + 1..] == ["bin", "python"])
  {
    var p := PythonPath(root, osName);
    var n := |Parent(root)|;
    assert p[n + 1..] == if osName == "nt" then ["Scripts", "python.exe"] else ["bin", "python"];
  }

  /** The configuration with the single server `name`, launched with the project's
      interpreter on the root's `mcp_server.py`, and the path of the JSON file. */
  function Config(root: Path, osName: string, name: string, envVars: map<string, string>): (McpConfig, Path) {
    var entry := ServerEntry(PythonPath(root, osName), [root + ["mcp_server.py"]], envVars);
    (McpConfig(map[name := entry]), root + ["mcp_config.json"])
  }

  /** There is exactly one server, named `name`, running the root's `mcp_server.py`
      with the interpreter and the given variables; the file is `mcp_config.json` in
      the root. */
  lemma ConfigShape(root: Path, osName: string, name: string, envVars: map<string, string>)
    ensures var (config, jsonPath) := Config(root, osName, name, envVars);
      && config.mcpServers.Keys == {name}
      && config.mcpServers[name].command == PythonPath(root, osName)
      && |config.mcpServers[name].args| == 1
      && Parent(config.mcpServers[name].args[0]) == root
      && config.mcpServers[name].args[0][|root|] == "mcp_server.py"
      && config.mcpServers[name].env == envVars
      && Parent(jsonPath) == root && jsonPath[|root|] == "mcp_config.json"
  {
    assert (root + ["mcp_server.py"])[..|root|] == root;
    assert (root + ["mcp_config.json"])[..|root|] == root;
  }

  /** The RAG server's `create_mcp_json`: the "rag-mcp" entry. */
  method CreateRagMcpJson(root: Path, osName: string, env: map<string, string>) returns (config: McpConfig, jsonPath: Path)
    ensures (config, jsonPath) == Config(root, osName, "rag-mcp", Filtered(env, RagRequired) + RagDefaults)
  {
    var envVars := RagEnvVariables(env);
    var entry := ServerEntry(PythonPath(root, osName), [root + ["mcp_server.py"]], envVars);
    config := McpConfig(map["rag-mcp" := entry]);
    jsonPath := root + ["mcp_config.json"];
  }

  /** The web-search server's `create_mcp_json`: the "tavily-web-search" entry. */
  method CreateWebMcpJson(root: Path, osName: string, env: map<string, string>) returns (config: McpConfig, jsonPath: Path)
    ensures (config, jsonPath) == Config(root, osName, "tavily-web-search", Filtered(env, WebRequired))
  {
    var envVars := WebEnvVariables(env);
    var entry := ServerEntry(PythonPath(root, osName), [root + ["mcp_server.py"]], envVars);
    config := McpConfig(map["tavily-web-search" := entry]);
    jsonPath := root + ["mcp_config.json"];
  }
}
