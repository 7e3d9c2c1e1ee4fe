/**
 * The parts the EKS and GKE kubeconfig templates share: the header, the
 * context that ties the cluster to its user, the current-context and
 * preferences lines, and the opening of the exec-plugin user entry. Also the
 * properties both documents are stated with.
 */
module KubeconfigTemplate {

  import opened Text

  const ExecApiVersion: string := "client.authentication.k8s.io/v1beta1"

  /** The template starts with a line feed, so its first line is empty. */
  function Preamble(): seq<string>
  {
    ["", "apiVersion: " + "v1"]
  }

  /** One context, named after the cluster, pairing the cluster with the user of the same name. */
  function ContextsSection(n: string): seq<string>
  {
    [ "contexts:",
      "- context:",
      "    cluster: " + n,
      "    user: " + n,
      "  name: " + n ]
  }

  function SettingsSection(n: string): seq<string>
  {
    [ "current-context: " + n,
      "kind: " + "Config",
      "preferences: " + "{}" ]
  }

  /** The user, named after the cluster, whose credentials come from an exec plugin. */
  function ExecUserHeader(n: string): seq<string>
  {
    [ "users:",
      "- name: " + n,
      "  user:",
      "    exec:",
      "      apiVersion: " + ExecApiVersion ]
  }

  lemma PreambleHasNoNewline()
    ensures forall l :: l in Preamble() ==> NoNewline(l)
  {
  }

  lemma ContextsHaveNoNewline(n: string)
    requires NoNewline(n)
    ensures forall l :: l in ContextsSection(n) ==> NoNewline(l)
  {
  }

  lemma SettingsHaveNoNewline(n: string)
    requires NoNewline(n)
    ensures forall l :: l in SettingsSection(n) ==> NoNewline(l)
  {
  }

  lemma ExecUserHeaderHasNoNewline(n: string)
    requires NoNewline(n)
    ensures forall l :: l in ExecUserHeader(n) ==> NoNewline(l)
  {
  }

  /**
   * The cluster's name `n` names the cluster entry and the context, is the
   * context's cluster and user, the current context and the user's name.
   */
  predicate NamedAfter(lines: seq<string>, n: string)
  {
    && KeyHasValue(lines, "  name: ", n)
    && KeyHasValue(lines, "    cluster: ", n)
    && KeyHasValue(lines, "    user: ", n)
    && KeyHasValue(lines, "current-context: ", n)
    && KeyHasValue(lines, "- name: ", n)
  }

  /** A v1 Config document with empty preferences. */
  predicate ConfigHeader(lines: seq<string>)
  {
    && KeyHasValue(lines, "apiVersion: ", "v1")
    && KeyHasValue(lines, "kind: ", "Config")
    && KeyHasValue(lines, "preferences: ", "{}")
  }

  /** No token, password or client certificate is stored in the user entry. */
  predicate NoStaticCredential(lines: seq<string>)
  {
    && KeyAbsent(lines, "    token: ")
    && KeyAbsent(lines, "    password: ")
    && KeyAbsent(lines, "    client-certificate-data: ")
    && KeyAbsent(lines, "    client-key-data: ")
  }
}
