/**
  The fixed data of the backend assessment (backend/config.py): the three platform
  enumerations, the pillar metadata and the fourteen five-question catalogs. Each catalog
  entry keeps its text, its importance (1-10) and its pillar tag; the per-question
  description and documentation link are carried through unchanged by the source and are
  not part of this model.
*/
module BackendCatalog {
  import opened Wrappers

  datatype RepositoryTool = GitHub | GitLab | AzureDevOps | Bitbucket
  datatype CicdPlatform = GitHubActions | AzurePipelines | GitLabCi | Jenkins | CircleCi
  datatype DeploymentPlatform = Azure | Aws | Gcp | OnPremise | Kubernetes

  /** The enum's string value. */
  function ToolValue(t: RepositoryTool): string {
    match t
    case GitHub => "github"
    case GitLab => "gitlab"
    case AzureDevOps => "azure_devops"
    case Bitbucket => "bitbucket"
  }

  /** RepositoryTool(value): the member with that value, or None where Python raises ValueError. */
  function ParseTool(s: string): (r: Option<RepositoryTool>)
    ensures r.Some? ==> ToolValue(r.value) == s
    ensures r.None? <==> forall t :: ToolValue(t) != s
  {
    if s == "github" then Some(GitHub)
    else if s == "gitlab" then Some(GitLab)
    else if s == "azure_devops" then Some(AzureDevOps)
    else if s == "bitbucket" then Some(Bitbucket)
    else None
  }

  function CicdValue(p: CicdPlatform): string {
    match p
    case GitHubActions => "github_actions"
    case AzurePipelines => "azure_pipelines"
    case GitLabCi => "gitlab_ci"
    case Jenkins => "jenkins"
    case CircleCi => "circleci"
  }

  function ParseCicd(s: string): (r: Option<CicdPlatform>)
    ensures r.Some? ==> CicdValue(r.value) == s
    ensures r.None? <==> forall p :: CicdValue(p) != s
  {
    if s == "github_actions" then Some(GitHubActions)
    else if s == "azure_pipelines" then Some(AzurePipelines)
    else if s == "gitlab_ci" then Some(GitLabCi)
    else if s == "jenkins" then Some(Jenkins)
    else if s == "circleci" then Some(CircleCi)
    else None
  }

  function DeploymentValue(p: DeploymentPlatform): string {
    match p
    case Azure => "azure"
    case Aws => "aws"
    case Gcp => "gcp"
    case OnPremise => "on_premise"
    case Kubernetes => "kubernetes"
  }

  function ParseDeployment(s: string): (r: Option<DeploymentPlatform>)
    ensures r.Some? ==> DeploymentValue(r.value) == s
    ensures r.None? <==> forall p :: DeploymentValue(p) != s
  {
    if s == "azure" then Some(Azure)
    else if s == "aws" then Some(Aws)
    else if s == "gcp" then Some(Gcp)
    else if s == "on_premise" then Some(OnPremise)
    else if s == "kubernetes" then Some(Kubernetes)
    else None
  }

  /**
    The pillar tags of PILLAR_METADATA. Every catalog tag is one of these, so the source's
    PILLAR_METADATA[pillar_id] lookup cannot fail and is total here.
  */
  datatype PillarTag =
      Security
    | Governance
    | CodeReview
    | RepositoryManagement
    | ProcessMetrics
    | CicdSecurity
    | CicdGovernance
    | CicdQuality
    | DeploymentAutomation
    | DeploymentSecurity
    | DeploymentMonitoring
    | DeploymentReliability

  /** The dictionary key of a pillar. */
  function PillarKey(t: PillarTag): string {
    match t
    case Security => "security"
    case Governance => "governance"
    case CodeReview => "code_review"
    case RepositoryManagement => "repository_management"
    case ProcessMetrics => "process_metrics"
    case CicdSecurity => "cicd_security"
    case CicdGovernance => "cicd_governance"
    case CicdQuality => "cicd_quality"
    case DeploymentAutomation => "deployment_automation"
    case DeploymentSecurity => "deployment_security"
    case DeploymentMonitoring => "deployment_monitoring"
    case DeploymentReliability => "deployment_reliability"
  }

  /** PILLAR_METADATA[id]["name"]. */
  function PillarName(t: PillarTag): string {
    match t
    case Security => "Security & Compliance"
    case Governance => "Governance & Access Control"
    case CodeReview => "Code Review & Quality"
    case RepositoryManagement => "Repository Management"
    case ProcessMetrics => "Process & Metrics"
    case CicdSecurity => "CI/CD Security"
    case CicdGovernance => "CI/CD Governance"
    case CicdQuality => "CI/CD Quality"
    case DeploymentAutomation => "Deployment Automation"
    case DeploymentSecurity => "Deployment Security"
    case DeploymentMonitoring => "Deployment Monitoring"
    case DeploymentReliability => "Deployment Reliability"
  }

  /** The fourteen question lists of the source, one per platform. */
  datatype CatalogName =
      GitHubList
    | GitLabList
    | AzureDevOpsList
    | BitbucketList
    | GitHubActionsList
    | AzurePipelinesList
    | GitLabCiList
    | JenkinsList
    | CircleCiList
    | AzureDeploymentList
    | AwsDeploymentList
    | GcpDeploymentList
    | OnPremiseDeploymentList
    | KubernetesDeploymentList

  /** A question's wording, by list and position; Wording gives the text itself. */
  datatype TextRef = TextRef(list: CatalogName, position: nat)

  /** The question texts of each list, in list order. */
  function Wordings(c: CatalogName): seq<string> {
    match c
    case GitHubList => [
      "Is MFA (Multi-Factor Authentication) enabled for all organization members?",
      "Are secrets prevented from being committed using GitHub secret scanning?",
      "Are security alerts (Dependabot, CodeQL) actively monitored and acted upon with defined SLAs?",
      "Is branch protection enforced (mandatory PRs, minimum reviewers, status checks)?",
      "Are repository visibility policies (public/internal/private) clearly defined and enforced?"
    ]
    case GitLabList => [
      "Is two-factor authentication (2FA) enabled for all group members?",
      "Are push rules configured to prevent secrets, large files, or invalid commits?",
      "Are security scanning results (SAST, DAST, dependency scanning) reviewed before code promotion?",
      "Is merge request approval rules enforced based on branch and code area?",
      "Are protected branches configured with restricted push and merge permissions?"
    ]
    case AzureDevOpsList => [
      "Is multi-factor authentication (MFA) enabled for all users?",
      "Are service hooks or policies used to prevent secret leakage?",
      "Is credential scanning enabled to detect secrets in code?",
      "Are branch policies enforced (minimum reviewers, build validation, comment resolution)?",
      "Are repository permissions managed using Azure AD groups with proper RBAC?"
    ]
    case BitbucketList => [
      "Is two-step verification enabled for all workspace members?",
      "Are merge checks configured to prevent secrets from being committed?",
      "Are branch restrictions enforced (mandatory PRs, minimum approvers)?",
      "Is SAML/SSO authentication enforced for workspace access?",
      "Are security vulnerabilities in dependencies tracked and remediated with SLAs?"
    ]
    case GitHubActionsList => [
      "Are GitHub Actions workflows triggered only from protected branches?",
      "Are workflow permissions set to least privilege (minimum required scopes)?",
      "Are secrets stored securely using GitHub Secrets or environment-specific secrets?",
      "Are third-party GitHub Actions pinned to specific commit SHAs instead of tags?",
      "Are required status checks configured to block merges on failing workflows?"
    ]
    case AzurePipelinesList => [
      "Are Azure Key Vault integrations used for secret management instead of pipeline variables?",
      "Are pipeline permissions restricted using Azure AD groups and service connections?",
      "Are deployment approvals and gates configured for production environments?",
      "Are agent pools secured and isolated per environment (dev/staging/prod)?",
      "Are pipeline audit logs monitored for unauthorized changes or executions?"
    ]
    case GitLabCiList => [
      "Are CI/CD variables marked as 'protected' and 'masked' to prevent exposure?",
      "Are runners properly tagged and restricted to specific projects or groups?",
      "Are deployment jobs configured with manual approval for production environments?",
      "Are security scanning jobs (SAST, DAST, dependency scanning) part of the CI pipeline?",
      "Are pipeline artifacts set with appropriate expiration policies?"
    ]
    case JenkinsList => [
      "Are Jenkins credentials stored in credential managers (not hardcoded in pipelines)?",
      "Are agent nodes secured with proper authentication and authorization?",
      "Are pipeline approvals enabled before deploying to production?",
      "Are Jenkins plugins regularly updated and security-scanned for vulnerabilities?",
      "Are build artifacts stored securely with access controls and retention policies?"
    ]
    case CircleCiList => [
      "Are environment variables configured as secrets in CircleCI project settings?",
      "Are restricted contexts used to limit access to sensitive credentials?",
      "Are approval jobs configured for production deployments?",
      "Are orbs (third-party integrations) from trusted sources and regularly reviewed?",
      "Are build artifacts stored with proper access controls and retention limits?"
    ]
    case AzureDeploymentList => [
      "Are Azure resources deployed using Infrastructure as Code (Bicep, Terraform, ARM)?",
      "Are Azure Key Vault and Managed Identities used for secrets management?",
      "Are Azure Monitor and Application Insights configured for logging and alerting?",
      "Are Azure Policy and RBAC enforced to control resource access and compliance?",
      "Are disaster recovery and backup strategies implemented for critical resources?"
    ]
    case AwsDeploymentList => [
      "Are AWS resources deployed using Infrastructure as Code (CloudFormation, Terraform, CDK)?",
      "Are AWS Secrets Manager and IAM roles used for secure credential management?",
      "Are CloudWatch logs, metrics, and alarms configured for monitoring and alerting?",
      "Are IAM policies enforced with least privilege and multi-factor authentication (MFA)?",
      "Are automated backups and disaster recovery plans configured for critical services?"
    ]
    case GcpDeploymentList => [
      "Are GCP resources deployed using Infrastructure as Code (Deployment Manager, Terraform)?",
      "Are Secret Manager and Workload Identity used for secure credential management?",
      "Are Cloud Monitoring (formerly Stackdriver) and Cloud Logging configured for observability?",
      "Are IAM policies and Organization Policies enforced with least privilege access?",
      "Are disaster recovery strategies and automated backups configured for critical data?"
    ]
    case OnPremiseDeploymentList => [
      "Are infrastructure configurations managed as code (Ansible, Puppet, Chef, Terraform)?",
      "Are secrets and credentials stored in secure vaults (HashiCorp Vault, CyberArk)?",
      "Are centralized logging and monitoring systems (ELK, Prometheus, Grafana) configured?",
      "Are access controls and network segmentation enforced for production environments?",
      "Are regular backups and disaster recovery procedures tested and documented?"
    ]
    case KubernetesDeploymentList => [
      "Are Kubernetes manifests managed using GitOps practices (ArgoCD, FluxCD)?",
      "Are secrets managed using external secret managers (Sealed Secrets, External Secrets Operator)?",
      "Are monitoring and logging solutions (Prometheus, Grafana, Loki) deployed in the cluster?",
      "Are RBAC policies and Network Policies enforced to restrict access and traffic?",
      "Are Persistent Volume backups and cluster disaster recovery plans in place?"
    ]
  }

  function Wording(r: TextRef): string
    requires r.position < |Wordings(r.list)|
  {
    Wordings(r.list)[r.position]
  }

  /** One catalog tuple: question text, importance, pillar tag. */
  datatype CatalogEntry = CatalogEntry(text: TextRef, importance: real, pillar: PillarTag)

  /** What every shipped catalog satisfies: non-empty, importances on the 1-10 scale. */
  predicate WellFormed(c: seq<CatalogEntry>) {
    && |c| > 0
    && (forall k :: 0 <= k < |c| ==> 1.0 <= c[k].importance <= 10.0)
  }

  /** GITHUB_QUESTIONS (backend/config.py:57-93). */
  const GitHubQuestions: seq<CatalogEntry> := [
    CatalogEntry(TextRef(GitHubList, 0), 8.0, Governance),
    CatalogEntry(TextRef(GitHubList, 1), 8.0, Security),
    CatalogEntry(TextRef(GitHubList, 2), 8.0, Security),
    CatalogEntry(TextRef(GitHubList, 3), 8.0, CodeReview),
    CatalogEntry(TextRef(GitHubList, 4), 7.0, Governance)
  ]

  /** GITLAB_QUESTIONS (backend/config.py:98-134). */
  const GitLabQuestions: seq<CatalogEntry> := [
    CatalogEntry(TextRef(GitLabList, 0), 8.0, Governance),
    CatalogEntry(TextRef(GitLabList, 1), 8.0, Security),
    CatalogEntry(TextRef(GitLabList, 2), 8.0, Security),
    CatalogEntry(TextRef(GitLabList, 3), 8.0, CodeReview),
    CatalogEntry(TextRef(GitLabList, 4), 8.0, CodeReview)
  ]

  /** AZURE_DEVOPS_QUESTIONS (backend/config.py:139-175). */
  const AzureDevOpsQuestions: seq<CatalogEntry> := [
    CatalogEntry(TextRef(AzureDevOpsList, 0), 8.0, Governance),
    CatalogEntry(TextRef(AzureDevOpsList, 1), 8.0, Security),
    CatalogEntry(TextRef(AzureDevOpsList, 2), 8.0, Security),
    CatalogEntry(TextRef(AzureDevOpsList, 3), 8.0, CodeReview),
    CatalogEntry(TextRef(AzureDevOpsList, 4), 7.0, Governance)
  ]

  /** BITBUCKET_QUESTIONS (backend/config.py:180-216). */
  const BitbucketQuestions: seq<CatalogEntry> := [
    CatalogEntry(TextRef(BitbucketList, 0), 8.0, Governance),
    CatalogEntry(TextRef(BitbucketList, 1), 8.0, Security),
    CatalogEntry(TextRef(BitbucketList, 2), 8.0, CodeReview),
    CatalogEntry(TextRef(BitbucketList, 3), 7.0, Governance),
    CatalogEntry(TextRef(BitbucketList, 4), 7.0, Security)
  ]

  /** GITHUB_ACTIONS_QUESTIONS (backend/config.py:224-260). */
  const GitHubActionsQuestions: seq<CatalogEntry> := [
    CatalogEntry(TextRef(GitHubActionsList, 0), 8.0, CicdSecurity),
    CatalogEntry(TextRef(GitHubActionsList, 1), 7.0, CicdSecurity),
    CatalogEntry(TextRef(GitHubActionsList, 2), 8.0, CicdSecurity),
    CatalogEntry(TextRef(GitHubActionsList, 3), 6.0, CicdGovernance),
    CatalogEntry(TextRef(GitHubActionsList, 4), 7.0, CicdQuality)
  ]

  /** AZURE_PIPELINES_QUESTIONS (backend/config.py:263-299). */
  const AzurePipelinesQuestions: seq<CatalogEntry> := [
    CatalogEntry(TextRef(AzurePipelinesList, 0), 8.0, CicdSecurity),
    CatalogEntry(TextRef(AzurePipelinesList, 1), 7.0, CicdGovernance),
    CatalogEntry(TextRef(AzurePipelinesList, 2), 7.0, CicdQuality),
    CatalogEntry(TextRef(AzurePipelinesList, 3), 6.0, CicdSecurity),
    CatalogEntry(TextRef(AzurePipelinesList, 4), 6.0, CicdGovernance)
  ]

  /** GITLAB_CI_QUESTIONS (backend/config.py:302-338). */
  const GitLabCiQuestions: seq<CatalogEntry> := [
    CatalogEntry(TextRef(GitLabCiList, 0), 8.0, CicdSecurity),
    CatalogEntry(TextRef(GitLabCiList, 1), 7.0, CicdGovernance),
    CatalogEntry(TextRef(GitLabCiList, 2), 7.0, CicdQuality),
    CatalogEntry(TextRef(GitLabCiList, 3), 7.0, CicdSecurity),
    CatalogEntry(TextRef(GitLabCiList, 4), 5.0, CicdGovernance)
  ]

  /** JENKINS_QUESTIONS (backend/config.py:341-377). */
  const JenkinsQuestions: seq<CatalogEntry> := [
    CatalogEntry(TextRef(JenkinsList, 0), 8.0, CicdSecurity),
    CatalogEntry(TextRef(JenkinsList, 1), 7.0, CicdSecurity),
    CatalogEntry(TextRef(JenkinsList, 2), 7.0, CicdQuality),
    CatalogEntry(TextRef(JenkinsList, 3), 6.0, CicdGovernance),
    CatalogEntry(TextRef(JenkinsList, 4), 6.0, CicdGovernance)
  ]

  /** CIRCLECI_QUESTIONS (backend/config.py:380-416). */
  const CircleCiQuestions: seq<CatalogEntry> := [
    CatalogEntry(TextRef(CircleCiList, 0), 8.0, CicdSecurity),
    CatalogEntry(TextRef(CircleCiList, 1), 7.0, CicdSecurity),
    CatalogEntry(TextRef(CircleCiList, 2), 7.0, CicdQuality),
    CatalogEntry(TextRef(CircleCiList, 3), 6.0, CicdGovernance),
    CatalogEntry(TextRef(CircleCiList, 4), 6.0, CicdGovernance)
  ]

  /** AZURE_DEPLOYMENT_QUESTIONS (backend/config.py:424-460). */
  const AzureDeploymentQuestions: seq<CatalogEntry> := [
    CatalogEntry(TextRef(AzureDeploymentList, 0), 7.0, DeploymentAutomation),
    CatalogEntry(TextRef(AzureDeploymentList, 1), 8.0, DeploymentSecurity),
    CatalogEntry(TextRef(AzureDeploymentList, 2), 7.0, DeploymentMonitoring),
    CatalogEntry(TextRef(AzureDeploymentList, 3), 7.0, DeploymentSecurity),
    CatalogEntry(TextRef(AzureDeploymentList, 4), 6.0, DeploymentReliability)
  ]

  /** AWS_DEPLOYMENT_QUESTIONS (backend/config.py:463-499). */
  const AwsDeploymentQuestions: seq<CatalogEntry> := [
    CatalogEntry(TextRef(AwsDeploymentList, 0), 7.0, DeploymentAutomation),
    CatalogEntry(TextRef(AwsDeploymentList, 1), 8.0, DeploymentSecurity),
    CatalogEntry(TextRef(AwsDeploymentList, 2), 7.0, DeploymentMonitoring),
    CatalogEntry(TextRef(AwsDeploymentList, 3), 7.0, DeploymentSecurity),
    CatalogEntry(TextRef(AwsDeploymentList, 4), 6.0, DeploymentReliability)
  ]

  /** GCP_DEPLOYMENT_QUESTIONS (backend/config.py:502-538). */
  const GcpDeploymentQuestions: seq<CatalogEntry> := [
    CatalogEntry(TextRef(GcpDeploymentList, 0), 7.0, DeploymentAutomation),
    CatalogEntry(TextRef(GcpDeploymentList, 1), 8.0, DeploymentSecurity),
    CatalogEntry(TextRef(GcpDeploymentList, 2), 7.0, DeploymentMonitoring),
    CatalogEntry(TextRef(GcpDeploymentList, 3), 7.0, DeploymentSecurity),
    CatalogEntry(TextRef(GcpDeploymentList, 4), 6.0, DeploymentReliability)
  ]

  /** ON_PREMISE_DEPLOYMENT_QUESTIONS (backend/config.py:541-577). */
  const OnPremiseDeploymentQuestions: seq<CatalogEntry> := [
    CatalogEntry(TextRef(OnPremiseDeploymentList, 0), 7.0, DeploymentAutomation),
    CatalogEntry(TextRef(OnPremiseDeploymentList, 1), 8.0, DeploymentSecurity),
    CatalogEntry(TextRef(OnPremiseDeploymentList, 2), 7.0, DeploymentMonitoring),
    CatalogEntry(TextRef(OnPremiseDeploymentList, 3), 7.0, DeploymentSecurity),
    CatalogEntry(TextRef(OnPremiseDeploymentList, 4), 6.0, DeploymentReliability)
  ]

  /** KUBERNETES_DEPLOYMENT_QUESTIONS (backend/config.py:580-616). */
  const KubernetesDeploymentQuestions: seq<CatalogEntry> := [
    CatalogEntry(TextRef(KubernetesDeploymentList, 0), 7.0, DeploymentAutomation),
    CatalogEntry(TextRef(KubernetesDeploymentList, 1), 8.0, DeploymentSecurity),
    CatalogEntry(TextRef(KubernetesDeploymentList, 2), 7.0, DeploymentMonitoring),
    CatalogEntry(TextRef(KubernetesDeploymentList, 3), 7.0, DeploymentSecurity),
    CatalogEntry(TextRef(KubernetesDeploymentList, 4), 6.0, DeploymentReliability)
  ]

  /** repo_questions_map / tool_questions_map. */
  function RepositoryCatalog(t: RepositoryTool): (c: seq<CatalogEntry>)
    ensures WellFormed(c) && |c| == 5
  {
    match t
    case GitHub => GitHubQuestions
    case GitLab => GitLabQuestions
    case AzureDevOps => AzureDevOpsQuestions
    case Bitbucket => BitbucketQuestions
  }

  /** cicd_questions_map. */
  function CicdCatalog(p: CicdPlatform): (c: seq<CatalogEntry>)
    ensures WellFormed(c) && |c| == 5
  {
    match p
    case GitHubActions => GitHubActionsQuestions
    case AzurePipelines => AzurePipelinesQuestions
    case GitLabCi => GitLabCiQuestions
    case Jenkins => JenkinsQuestions
    case CircleCi => CircleCiQuestions
  }

  /** deployment_questions_map. */
  function DeploymentCatalog(p: DeploymentPlatform): (c: seq<CatalogEntry>)
    ensures WellFormed(c) && |c| == 5
  {
    match p
    case Azure => AzureDeploymentQuestions
    case Aws => AwsDeploymentQuestions
    case Gcp => GcpDeploymentQuestions
    case OnPremise => OnPremiseDeploymentQuestions
    case Kubernetes => KubernetesDeploymentQuestions
  }
}
